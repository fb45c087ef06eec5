/** String operations the pages and the booking endpoint rely on: ASCII case
    mapping (`toLowerCase`, `toUpperCase`), substring search (`includes`,
    `indexOf`), `split(sep)[0]` and `replaceAll(c, "")`. Case mapping is modelled
    over ASCII letters only. */
module Text {
  import opened Base

  function LowerChar(c: char): char
  {
    if 'A' <= c <= 'Z' then (c as int + 32) as char else c
  }

  function UpperChar(c: char): char
  {
    if 'a' <= c <= 'z' then (c as int - 32) as char else c
  }

  /** `s.toLowerCase()` restricted to ASCII. */
  function ToLower(s: string): (r: string)
    ensures |r| == |s|
    ensures forall i :: 0 <= i < |s| ==> r[i] == LowerChar(s[i])
  {
    MapSeq(s, LowerChar)
  }

  /** `s.toUpperCase()` restricted to ASCII. */
  function ToUpper(s: string): (r: string)
    ensures |r| == |s|
    ensures forall i :: 0 <= i < |s| ==> r[i] == UpperChar(s[i])
  {
    MapSeq(s, UpperChar)
  }

  /** `pat` occurs in `text` starting at position `i`. */
  predicate OccursAt(text: string, pat: string, i: int)
  {
    0 <= i <= |text| - |pat| && text[i..i + |pat|] == pat
  }

  /** `text.includes(pat)`: `pat` occurs in `text` at some position. */
  predicate Includes(text: string, pat: string)
  {
    exists i | 0 <= i <= |text| - |pat| :: OccursAt(text, pat, i)
  }

  /** The empty string occurs in every string. */
  lemma EmptyIncluded(text: string)
    ensures Includes(text, "")
  {
    assert OccursAt(text, "", 0);
  }

  /** First position at or after `k` where `pat` occurs, or -1. */
  function IndexFrom(text: string, pat: string, k: nat): (r: int)
    decreases |text| + 1 - k
    ensures r == -1 || (k <= r && OccursAt(text, pat, r))
    ensures r == -1 ==> forall j :: k <= j ==> !OccursAt(text, pat, j)
    ensures r >= 0 ==> forall j :: k <= j < r ==> !OccursAt(text, pat, j)
  {
    if k + |pat| > |text| then -1
    else if text[k..k + |pat|] == pat then k
    else IndexFrom(text, pat, k + 1)
  }

  /** `text.indexOf(pat)`: the first occurrence of `pat`, or -1 when there is none. */
  function IndexOf(text: string, pat: string): (r: int)
    ensures r >= 0 <==> Includes(text, pat)
    ensures r >= 0 ==> OccursAt(text, pat, r)
    ensures r >= 0 ==> forall j :: 0 <= j < r ==> !OccursAt(text, pat, j)
    ensures r < 0 ==> r == -1
  {
    IndexFrom(text, pat, 0)
  }

  lemma LowerOfUpper(s: string)
    ensures ToLower(ToUpper(s)) == ToLower(s)
  {
    assert forall i :: 0 <= i < |s| ==> LowerChar(UpperChar(s[i])) == LowerChar(s[i]);
  }

  lemma UpperOfLower(s: string)
    ensures ToUpper(ToLower(s)) == ToUpper(s)
  {
    assert forall i :: 0 <= i < |s| ==> UpperChar(LowerChar(s[i])) == UpperChar(s[i]);
  }

  lemma IncludesUnderLower(text: string, pat: string)
    requires Includes(text, pat)
    ensures Includes(ToLower(text), ToLower(pat))
  {
    var i :| 0 <= i <= |text| - |pat| && OccursAt(text, pat, i);
    assert text[i..i + |pat|] == pat;
    assert forall k :: 0 <= k < |pat| ==> ToLower(text)[i..i + |pat|][k] == ToLower(pat)[k];
    assert OccursAt(ToLower(text), ToLower(pat), i);
  }

  lemma IncludesUnderUpper(text: string, pat: string)
    requires Includes(text, pat)
    ensures Includes(ToUpper(text), ToUpper(pat))
  {
    var i :| 0 <= i <= |text| - |pat| && OccursAt(text, pat, i);
    assert text[i..i + |pat|] == pat;
    assert forall k :: 0 <= k < |pat| ==> ToUpper(text)[i..i + |pat|][k] == ToUpper(pat)[k];
    assert OccursAt(ToUpper(text), ToUpper(pat), i);
  }

  /** Over ASCII, matching upper-cased strings is the same as matching lower-cased ones. */
  lemma UpperMatchIffLowerMatch(text: string, pat: string)
    ensures Includes(ToUpper(text), ToUpper(pat)) <==> Includes(ToLower(text), ToLower(pat))
  {
    if Includes(ToUpper(text), ToUpper(pat)) {
      IncludesUnderLower(ToUpper(text), ToUpper(pat));
      LowerOfUpper(text);
      LowerOfUpper(pat);
    }
    if Includes(ToLower(text), ToLower(pat)) {
      IncludesUnderUpper(ToLower(text), ToLower(pat));
      UpperOfLower(text);
      UpperOfLower(pat);
    }
  }

  /** `s.split(sep)[0]`: the part of `s` before its first `sep`, or all of `s`. */
  function BeforeFirst(s: string, sep: char): (r: string)
    ensures sep !in r
    ensures |r| <= |s| && r == s[..|r|]
    ensures |r| < |s| ==> s[|r|] == sep
    ensures sep !in s ==> r == s
  {
    if s == [] then []
    else if s[0] == sep then []
    else [s[0]] + BeforeFirst(s[1..], sep)
  }

  /** The UTF-16 code units `c` takes: one inside the Basic Multilingual Plane, two (a
      surrogate pair) outside it. */
  function CodeUnits(c: char): nat
  {
    if c as int < 0x1_0000 then 1 else 2
  }

  /** `s.length` in JavaScript, which counts UTF-16 code units rather than characters. */
  function Utf16Length(s: string): (n: nat)
    ensures |s| <= n <= 2 * |s|
    ensures (forall i :: 0 <= i < |s| ==> s[i] as int < 0x1_0000) ==> n == |s|
    ensures (forall i :: 0 <= i < |s| ==> s[i] as int >= 0x1_0000) ==> n == 2 * |s|
  {
    if s == [] then 0 else Utf16Length(s[..|s| - 1]) + CodeUnits(s[|s| - 1])
  }

  lemma Utf16LengthAppend(s: string, x: char)
    ensures Utf16Length(s + [x]) == Utf16Length(s) + CodeUnits(x)
  {
    assert (s + [x])[..|s|] == s;
  }

  /** `s.replaceAll(c, "")`: every other character stays, as often as it occurs and in
      its order. */
  function RemoveAll(s: string, c: char): (r: string)
    ensures c !in r
    ensures forall x :: x != c ==> (x in r <==> x in s)
    ensures forall x :: multiset(r)[x] == if x != c then multiset(s)[x] else 0
    ensures IsSubsequence(r, s)
  {
    var p := (x: char) => x != c;
    FilterCounts(s, p);
    FilterIsSubsequence(s, p);
    Filter(s, p)
  }

  /** Removing `c` from `s` extended by `x` extends the result by `x` unless `x` is `c`. */
  lemma RemoveAllAppend(s: string, x: char, c: char)
    ensures RemoveAll(s + [x], c) == RemoveAll(s, c) + (if x != c then [x] else [])
  {
    FilterAppend(s, x, (y: char) => y != c);
  }

  /** Removing characters never makes a string longer in UTF-16 code units. */
  lemma {:induction false} RemoveAllShortens(s: string, c: char)
    ensures Utf16Length(RemoveAll(s, c)) <= Utf16Length(s)
  {
    if s != [] {
      var init := s[..|s| - 1];
      var x := s[|s| - 1];
      assert s == init + [x];
      RemoveAllShortens(init, c);
      RemoveAllAppend(init, x, c);
      Utf16LengthAppend(init, x);
      var r := RemoveAll(init, c);
      if x != c {
        assert RemoveAll(s, c) == r + [x];
        Utf16LengthAppend(r, x);
      } else {
        assert RemoveAll(s, c) == r;
      }
    }
  }

  predicate IsDigit(c: char)
  {
    '0' <= c <= '9'
  }

  predicate AllDigits(s: string)
  {
    forall i :: 0 <= i < |s| ==> IsDigit(s[i])
  }

  function DigitChar(d: nat): (c: char)
    requires d < 10
    ensures IsDigit(c) && c as int - '0' as int == d
  {
    ('0' as int + d) as char
  }

  /** `n.toString()` for a natural number: its decimal digits, without leading zeros. */
  function NatToString(n: nat): (r: string)
    ensures 1 <= |r| && AllDigits(r)
    ensures n < 10 <==> |r| == 1
    ensures n < 100 ==> |r| <= 2
    decreases n
  {
    if n < 10 then [DigitChar(n)] else NatToString(n / 10) + [DigitChar(n % 10)]
  }

  /** The value of a string of decimal digits, most significant first. */
  function DigitsValue(s: string): nat
    requires AllDigits(s)
  {
    if s == [] then 0 else DigitsValue(s[..|s| - 1]) * 10 + (s[|s| - 1] as int - '0' as int)
  }

  /** The longest prefix of `s` made of decimal digits. */
  function LeadingDigits(s: string): (r: string)
    ensures |r| <= |s| && r == s[..|r|] && AllDigits(r)
    ensures |r| < |s| ==> !IsDigit(s[|r|])
  {
    if s == [] || !IsDigit(s[0]) then [] else [s[0]] + LeadingDigits(s[1..])
  }

  /** `parseInt(s)` with no radix, on text that is empty or starts with a digit or
      another non-blank, non-sign character: the value of the leading decimal digits,
      and `None` (NaN) when there are none. Without a radix, `parseInt` would read text
      starting "0x" as hexadecimal; such text starts "0" followed by a non-digit, and the
      hour options never have that form. */
  function ParseInt(s: string): (r: Option<nat>)
    ensures r.None? <==> s == [] || !IsDigit(s[0])
  {
    var d := LeadingDigits(s);
    if d == [] then None else Some(DigitsValue(d))
  }

  lemma {:induction false} LeadingDigitsOfDigits(s: string)
    requires AllDigits(s)
    ensures LeadingDigits(s) == s
  {
    if s != [] {
      LeadingDigitsOfDigits(s[1..]);
    }
  }

  lemma {:induction false} DigitsValueOfNatToString(n: nat)
    ensures DigitsValue(NatToString(n)) == n
    decreases n
  {
    if n >= 10 {
      var s := NatToString(n);
      assert s[..|s| - 1] == NatToString(n / 10);
      DigitsValueOfNatToString(n / 10);
    }
  }

  /** Reading back the decimal text of a number gives the number. */
  lemma ParseIntOfNatToString(n: nat)
    ensures ParseInt(NatToString(n)) == Some(n)
  {
    LeadingDigitsOfDigits(NatToString(n));
    DigitsValueOfNatToString(n);
  }
}
