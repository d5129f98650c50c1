/** Strings as the source prints and inspects them: decimal rendering of
    integers (Swift's `"\(n)"` and `%d`), ASCII case tests and mappings
    (Python's `str.isupper`, `lower`, `capitalize`), substring and prefix tests. */
module Text {
  import opened Wrappers

  // ---------------------------------------------------------------- digits

  predicate IsDigit(c: char) {
    '0' <= c <= '9'
  }

  predicate AllDigits(s: string) {
    forall i :: 0 <= i < |s| ==> IsDigit(s[i])
  }

  function DigitChar(d: nat): (c: char)
    requires d < 10
    ensures IsDigit(c)
  {
    "0123456789"[d]
  }

  function DigitValue(c: char): (d: nat)
    requires IsDigit(c)
    ensures d < 10
  {
    (c as int - '0' as int) as nat
  }

  lemma DigitValueOfChar(d: nat)
    requires d < 10
    ensures DigitValue(DigitChar(d)) == d
  {
  }

  /** The decimal digits of `n`, most significant first, without leading zeros. */
  function NatToString(n: nat): (s: string)
    ensures |s| >= 1 && AllDigits(s)
    ensures |s| > 1 ==> s[0] != '0'
    ensures (|s| == 1) == (n < 10)
    ensures (|s| == 2) == (10 <= n < 100)
    decreases n
  {
    if n < 10 then [DigitChar(n)] else NatToString(n / 10) + [DigitChar(n % 10)]
  }

  /** The value of a string of decimal digits. */
  function DigitsValue(s: string): nat
    requires AllDigits(s)
    decreases |s|
  {
    if s == [] then 0 else 10 * DigitsValue(s[..|s| - 1]) + DigitValue(s[|s| - 1])
  }

  /** Reads back a non-empty run of decimal digits. */
  function ParseNat(s: string): Option<nat> {
    if s != [] && AllDigits(s) then Some(DigitsValue(s)) else None
  }

  lemma {:induction false} NatToStringValue(n: nat)
    ensures DigitsValue(NatToString(n)) == n
    decreases n
  {
    var s := NatToString(n);
    if n < 10 {
      DigitValueOfChar(n);
    } else {
      NatToStringValue(n / 10);
      DigitValueOfChar(n % 10);
      assert s[..|s| - 1] == NatToString(n / 10);
    }
  }

  /** Printing a natural number and reading it back gives the number. */
  lemma NatToStringRoundTrip(n: nat)
    ensures ParseNat(NatToString(n)) == Some(n)
  {
    NatToStringValue(n);
  }

  /** Swift's `"\(i)"` and `%d` for a signed integer. */
  function IntToString(i: int): (s: string)
    ensures i >= 0 ==> s == NatToString(i)
    ensures i < 0 ==> s == "-" + NatToString(-i)
    ensures forall k :: 0 <= k < |s| ==> IsDigit(s[k]) || s[k] == '-'
  {
    if i < 0 then "-" + NatToString(-i) else NatToString(i)
  }

  /** `%02d`: at least two characters, padded with a leading zero. */
  function Pad2(i: int): (s: string)
    ensures 0 <= i < 100 ==> |s| == 2 && AllDigits(s)
    ensures forall k :: 0 <= k < |s| ==> IsDigit(s[k]) || s[k] == '-'
  {
    if 0 <= i < 10 then "0" + NatToString(i) else IntToString(i)
  }

  lemma {:induction false} Pad2RoundTrip(i: nat)
    requires i < 100
    ensures ParseNat(Pad2(i)) == Some(i)
  {
    NatToStringValue(i);
    var s := Pad2(i);
    if i < 10 {
      assert s == "0" + NatToString(i);
      assert s[..1] == "0";
      assert DigitsValue(s[..1]) == 0;
    }
  }

  // ---------------------------------------------------------- substrings

  /** `s.startswith(prefix)` / `s.hasPrefix(prefix)`. */
  predicate StartsWith(s: string, prefix: string) {
    |prefix| <= |s| && s[..|prefix|] == prefix
  }

  /** Python's `sub in s` for two strings. */
  predicate Contains(s: string, sub: string)
    decreases |s|
  {
    StartsWith(s, sub) || (s != [] && Contains(s[1..], sub))
  }

  lemma {:induction false} ContainsAt(s: string, sub: string, i: nat)
    requires i + |sub| <= |s| && s[i..i + |sub|] == sub
    ensures Contains(s, sub)
    decreases i
  {
    if i > 0 {
      assert s[1..][i - 1..i - 1 + |sub|] == sub;
      ContainsAt(s[1..], sub, i - 1);
    }
  }

  // ------------------------------------------------------ ASCII letter case

  predicate IsUpperChar(c: char) {
    'A' <= c <= 'Z'
  }

  predicate IsLowerChar(c: char) {
    'a' <= c <= 'z'
  }

  predicate IsCased(c: char) {
    IsUpperChar(c) || IsLowerChar(c)
  }

  function ToLowerChar(c: char): (d: char)
    ensures !IsUpperChar(d)
    ensures IsCased(d) <==> IsCased(c)
  {
    if IsUpperChar(c) then (c as int + 32) as char else c
  }

  function ToUpperChar(c: char): (d: char)
    ensures !IsLowerChar(d)
    ensures IsCased(d) <==> IsCased(c)
  {
    if IsLowerChar(c) then (c as int - 32) as char else c
  }

  /** Python's `s.isupper()`: some cased character, and no lower-case one. */
  predicate PyIsUpper(s: string) {
    (exists i :: 0 <= i < |s| && IsCased(s[i])) && forall i :: 0 <= i < |s| ==> !IsLowerChar(s[i])
  }

  /** Python's `s.islower()`: some cased character, and no upper-case one. */
  predicate PyIsLower(s: string) {
    (exists i :: 0 <= i < |s| && IsCased(s[i])) && forall i :: 0 <= i < |s| ==> !IsUpperChar(s[i])
  }

  /** No string is both all upper case and all lower case. */
  lemma UpperIsNotLower(s: string)
    ensures PyIsUpper(s) ==> !PyIsLower(s)
  {
    if PyIsUpper(s) {
      var i :| 0 <= i < |s| && IsCased(s[i]);
      assert !IsLowerChar(s[i]);
    }
  }

  /** Lower-casing and upper-casing again gives back a character that was not lower
      case. */
  lemma RaiseLowered(c: char)
    requires !IsLowerChar(c)
    ensures ToUpperChar(ToLowerChar(c)) == c
  {
  }

  /** Python's `s.lower()`. */
  function Lower(s: string): (r: string)
    ensures |r| == |s|
    ensures forall i :: 0 <= i < |s| ==> r[i] == ToLowerChar(s[i])
  {
    seq(|s|, i requires 0 <= i < |s| => ToLowerChar(s[i]))
  }

  /** Python's `s.capitalize()`: first character upper-cased, the rest lower-cased. */
  function Capitalize(s: string): (r: string)
    ensures |r| == |s|
    ensures |s| > 0 ==> r[0] == ToUpperChar(s[0])
    ensures forall i :: 1 <= i < |s| ==> r[i] == ToLowerChar(s[i])
  {
    if s == [] then [] else [ToUpperChar(s[0])] + Lower(s[1..])
  }
}
