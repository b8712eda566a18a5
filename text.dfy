/** The Python text primitives the harness relies on: `str.isspace`,
    `str.strip`, `int(str)` for base-10 literals and `str(int)`. */
module Text {

  import opened Common

  /** The characters Python's `str.isspace` accepts. */
  predicate IsWhitespace(c: char) {
    || c == ' '
    || ('\t' <= c <= '\r')
    || ('\U{1C}' <= c <= '\U{1F}')
    || c == '\U{85}' || c == '\U{A0}' || c == '\U{1680}'
    || ('\U{2000}' <= c <= '\U{200A}')
    || c == '\U{2028}' || c == '\U{2029}' || c == '\U{202F}' || c == '\U{205F}' || c == '\U{3000}'
  }

  /** The two whitespace sets the harness meets. `str.strip` removes every
      character `str.isspace` accepts. `int()` turns non-ASCII whitespace
      into a space first, then skips only the ASCII space, tab, line feed,
      vertical tab, form feed and carriage return; so it rejects
      U+001C..U+001F, which `str.isspace` accepts. */
  datatype Spaces = StrSpaces | IntSpaces

  predicate IsSpace(sp: Spaces, c: char) {
    IsWhitespace(c) && (sp == IntSpaces ==> !('\U{1C}' <= c <= '\U{1F}'))
  }

  /** The index of the first character of `s` at or after `i` that is not
      whitespace, or `|s|` when there is none. */
  function SkipSpaces(s: string, sp: Spaces, i: nat): (k: nat)
    requires i <= |s|
    ensures i <= k <= |s|
    decreases |s| - i
  {
    if i < |s| && IsSpace(sp, s[i]) then SkipSpaces(s, sp, i + 1) else i
  }

  /** The forward scan passes over whitespace only, and stops at the first
      character that is not whitespace. */
  lemma {:induction false} SkipSpacesStops(s: string, sp: Spaces, i: nat)
    requires i <= |s|
    ensures forall j :: i <= j < SkipSpaces(s, sp, i) ==> IsSpace(sp, s[j])
    ensures SkipSpaces(s, sp, i) < |s| ==> !IsSpace(sp, s[SkipSpaces(s, sp, i)])
    decreases |s| - i
  {
    if i < |s| && IsSpace(sp, s[i]) {
      SkipSpacesStops(s, sp, i + 1);
    }
  }

  /** The index just past the last character of `s[lo..j]` that is not
      whitespace, or `lo` when there is none. */
  function SkipSpacesBack(s: string, sp: Spaces, lo: nat, j: nat): (k: nat)
    requires lo <= j <= |s|
    ensures lo <= k <= j
    decreases j
  {
    if lo < j && IsSpace(sp, s[j - 1]) then SkipSpacesBack(s, sp, lo, j - 1) else j
  }

  /** The backward scan passes over whitespace only, and stops after the last
      character that is not whitespace. */
  lemma {:induction false} SkipSpacesBackStops(s: string, sp: Spaces, lo: nat, j: nat)
    requires lo <= j <= |s|
    ensures forall m :: SkipSpacesBack(s, sp, lo, j) <= m < j ==> IsSpace(sp, s[m])
    ensures SkipSpacesBack(s, sp, lo, j) > lo ==> !IsSpace(sp, s[SkipSpacesBack(s, sp, lo, j) - 1])
    decreases j
  {
    if lo < j && IsSpace(sp, s[j - 1]) {
      SkipSpacesBackStops(s, sp, lo, j - 1);
    }
  }

  /** `r` is `s` with exactly its first `i` characters and everything after
      `i + |r|` removed, and all of those are whitespace. */
  predicate StrippedAt(s: string, sp: Spaces, i: int, r: string) {
    && 0 <= i && i + |r| <= |s| && r == s[i..i + |r|]
    && (forall k :: 0 <= k < i ==> IsSpace(sp, s[k]))
    && (forall k :: i + |r| <= k < |s| ==> IsSpace(sp, s[k]))
  }

  /** `s.strip()`: scan forward over the leading whitespace, then backward
      over the trailing whitespace, and keep what lies between. */
  function Strip(s: string, sp: Spaces): (r: string)
    ensures |r| <= |s|
  {
    var i := SkipSpaces(s, sp, 0);
    s[i..SkipSpacesBack(s, sp, i, |s|)]
  }

  /** `s.strip()` is `s` with exactly its leading and trailing whitespace
      removed: a slice of `s` with only whitespace before and after it that
      neither starts nor ends with whitespace. */
  lemma StripRemovesSurroundingWhitespace(s: string, sp: Spaces)
    ensures StrippedAt(s, sp, SkipSpaces(s, sp, 0), Strip(s, sp))
    ensures var r := Strip(s, sp); |r| > 0 ==> !IsSpace(sp, r[0]) && !IsSpace(sp, r[|r| - 1])
  {
    var i := SkipSpaces(s, sp, 0);
    var j := SkipSpacesBack(s, sp, i, |s|);
    SkipSpacesStops(s, sp, 0);
    SkipSpacesBackStops(s, sp, i, |s|);
    assert Strip(s, sp) == s[i..j];
  }

  /** `s.strip()` is the only such slice: any slice with only whitespace
      around it that is empty or neither starts nor ends with whitespace is
      `s.strip()`. */
  lemma StripUnique(s: string, sp: Spaces, i: int, r: string)
    requires StrippedAt(s, sp, i, r)
    requires |r| > 0 ==> !IsSpace(sp, r[0]) && !IsSpace(sp, r[|r| - 1])
    ensures Strip(s, sp) == r
  {
    var a := SkipSpaces(s, sp, 0);
    SkipSpacesStops(s, sp, 0);
    if |r| > 0 {
      assert !IsSpace(sp, s[i]) by {
        assert s[i] == r[0];
      }
      assert a == i;
      var b := SkipSpacesBack(s, sp, a, |s|);
      SkipSpacesBackStops(s, sp, a, |s|);
      assert !IsSpace(sp, s[i + |r| - 1]) by {
        assert s[i + |r| - 1] == r[|r| - 1];
      }
      assert b == i + |r|;
    } else {
      assert a == |s|;
    }
  }

  /** `s.strip()` is empty exactly when `s` is blank. */
  lemma StripBlank(s: string, sp: Spaces)
    ensures Strip(s, sp) == [] <==> forall i :: 0 <= i < |s| ==> IsSpace(sp, s[i])
  {
    if forall i :: 0 <= i < |s| ==> IsSpace(sp, s[i]) {
      StripUnique(s, sp, |s|, []);
    } else {
      StripRemovesSurroundingWhitespace(s, sp);
    }
  }

  /** `s.strip()` leaves alone a string that neither starts nor ends with
      whitespace. */
  lemma StripKeepsTrimmed(s: string, sp: Spaces)
    requires |s| > 0 && !IsSpace(sp, s[0]) && !IsSpace(sp, s[|s| - 1])
    ensures Strip(s, sp) == s
  {
    assert s == s[0..|s|];
    StripUnique(s, sp, 0, s);
  }

  /** Surrounding whitespace does not change what `s.strip()` leaves. */
  lemma StripSkipsSurroundingSpaces(pre: string, s: string, post: string, sp: Spaces)
    requires forall i :: 0 <= i < |pre| ==> IsSpace(sp, pre[i])
    requires forall i :: 0 <= i < |post| ==> IsSpace(sp, post[i])
    ensures Strip(pre + s + post, sp) == Strip(s, sp)
  {
    var x := pre + s + post;
    var r := Strip(s, sp);
    var i := SkipSpaces(s, sp, 0);
    StripRemovesSurroundingWhitespace(s, sp);
    forall k | 0 <= k < |pre| + i
      ensures IsSpace(sp, x[k])
    {
      if k >= |pre| {
        assert x[k] == s[k - |pre|];
      }
    }
    forall k | |pre| + i + |r| <= k < |x|
      ensures IsSpace(sp, x[k])
    {
      if k < |pre| + |s| {
        assert x[k] == s[k - |pre|];
      } else {
        assert x[k] == post[k - |pre| - |s|];
      }
    }
    assert r == x[|pre| + i..|pre| + i + |r|];
    StripUnique(x, sp, |pre| + i, r);
  }

  predicate IsDigit(c: char) {
    '0' <= c <= '9'
  }

  function DigitValue(c: char): nat
    requires IsDigit(c)
  {
    c as int - '0' as int
  }

  /** The digit part of a base-10 literal as `int()` accepts it: digits, with
      single underscores allowed between two digits. */
  predicate IsDigitString(d: string) {
    && |d| > 0
    && IsDigit(d[0])
    && IsDigit(d[|d| - 1])
    && (forall i :: 0 <= i < |d| ==> IsDigit(d[i]) || d[i] == '_')
    && (forall i :: 0 <= i < |d| - 1 && d[i] == '_' ==> IsDigit(d[i + 1]))
  }

  /** The number a digit string denotes; underscores are skipped. */
  function DigitsValue(d: string): nat
    requires forall i :: 0 <= i < |d| ==> IsDigit(d[i]) || d[i] == '_'
  {
    if |d| == 0 then 0
    else if d[|d| - 1] == '_' then DigitsValue(d[..|d| - 1])
    else 10 * DigitsValue(d[..|d| - 1]) + DigitValue(d[|d| - 1])
  }

  /** What `int()` accepts once the whitespace around it is gone: exactly a
      digit string with at most one sign in front; anything else is a
      ValueError (`None`). */
  function ParseLiteral(t: string): (r: Option<int>)
    ensures r.Some? <==> IsDigitString(t) || (|t| > 0 && (t[0] == '+' || t[0] == '-') && IsDigitString(t[1..]))
  {
    if |t| > 0 && (t[0] == '+' || t[0] == '-') then
      if IsDigitString(t[1..]) then
        var n: int := DigitsValue(t[1..]);
        Some(if t[0] == '-' then -n else n)
      else None
    else if IsDigitString(t) then Some(DigitsValue(t))
    else None
  }

  /** `int(s)` for a string: the literal left once the whitespace `int()`
      skips is stripped. */
  function ParseInt(s: string): (r: Option<int>)
    ensures var t := Strip(s, IntSpaces);
      r.Some? <==> IsDigitString(t) || (|t| > 0 && (t[0] == '+' || t[0] == '-') && IsDigitString(t[1..]))
  {
    ParseLiteral(Strip(s, IntSpaces))
  }

  /** A blank string is not a literal. */
  lemma ParseIntBlank(s: string)
    requires forall i :: 0 <= i < |s| ==> IsSpace(IntSpaces, s[i])
    ensures ParseInt(s).None?
  {
    StripBlank(s, IntSpaces);
  }

  /** A digit string reads as its value. */
  lemma ParseIntDigits(s: string)
    requires IsDigitString(s)
    ensures ParseInt(s) == Some(DigitsValue(s))
  {
    StripKeepsTrimmed(s, IntSpaces);
    assert s[0] != '+' && s[0] != '-';
  }

  /** A sign followed by a digit string reads as the value, negated for `-`. */
  lemma ParseIntSigned(s: string)
    requires |s| > 1 && (s[0] == '+' || s[0] == '-') && IsDigitString(s[1..])
    ensures ParseInt(s).Some?
    ensures ParseInt(s).value == if s[0] == '-' then -(DigitsValue(s[1..]) as int) else DigitsValue(s[1..])
  {
    assert Strip(s, IntSpaces) == s by {
      assert IsDigit(s[|s| - 1]) by {
        assert s[|s| - 1] == s[1..][|s| - 2];
      }
      StripKeepsTrimmed(s, IntSpaces);
    }
    ParseLiteralSigned(s);
  }

  /** A sign followed by a digit string is a literal. */
  lemma ParseLiteralSigned(t: string)
    requires |t| > 1 && (t[0] == '+' || t[0] == '-') && IsDigitString(t[1..])
    ensures ParseLiteral(t).Some?
    ensures ParseLiteral(t).value == if t[0] == '-' then -(DigitsValue(t[1..]) as int) else DigitsValue(t[1..])
  {
  }

  /** Whitespace around a literal does not change what `int()` reads. */
  lemma ParseIntSkipsSurroundingSpaces(pre: string, s: string, post: string)
    requires forall i :: 0 <= i < |pre| ==> IsSpace(IntSpaces, pre[i])
    requires forall i :: 0 <= i < |post| ==> IsSpace(IntSpaces, post[i])
    ensures ParseInt(pre + s + post) == ParseInt(s)
  {
    StripSkipsSurroundingSpaces(pre, s, post, IntSpaces);
  }

  /** `str(n)` for a natural number: its decimal digits, no leading zeros. */
  function NatToString(n: nat): string {
    var c := ('0' as int + n % 10) as char;
    if n < 10 then [c] else NatToString(n / 10) + [c]
  }

  /** `str(n)` for an integer: a minus sign for a negative number, then
      the decimal digits of its magnitude, with no leading zero. */
  function IntToString(n: int): (r: string)
    ensures n >= 0 ==> IsDigitString(r) && DigitsValue(r) == n
    ensures n < 0 ==> |r| > 1 && r[0] == '-' && IsDigitString(r[1..]) && DigitsValue(r[1..]) == -n
    ensures forall i :: 0 <= i < |r| ==> r[i] != '_'
    ensures var d := if n < 0 then r[1..] else r; d[0] == '0' ==> d == "0"
  {
    var m: nat := if n < 0 then -n else n;
    NatToStringDigits(m);
    if n < 0 then
      var r := "-" + NatToString(m);
      assert r[1..] == NatToString(m);
      r
    else NatToString(m)
  }

  lemma {:induction false} NatToStringDigits(n: nat)
    ensures |NatToString(n)| > 0
    ensures forall i :: 0 <= i < |NatToString(n)| ==> IsDigit(NatToString(n)[i])
    ensures DigitsValue(NatToString(n)) == n
    ensures NatToString(n)[0] == '0' ==> n == 0
  {
    var s := NatToString(n);
    if n >= 10 {
      NatToStringDigits(n / 10);
      assert s[..|s| - 1] == NatToString(n / 10);
      assert s[0] == NatToString(n / 10)[0];
    }
  }

  /** `int(str(n)) == n`: what `str` writes, `int` reads back. */
  lemma {:induction false} ParseIntToString(n: int)
    ensures ParseInt(IntToString(n)) == Some(n)
  {
    var m: nat := if n < 0 then -n else n;
    var d := NatToString(m);
    assert IsDigitString(d) && DigitsValue(d) == m by {
      NatToStringDigits(m);
    }
    if n < 0 {
      assert IntToString(n)[1..] == d;
      ParseIntSigned(IntToString(n));
    } else {
      ParseIntDigits(d);
    }
  }
}
