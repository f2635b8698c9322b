/** The few pieces of Python string behaviour the core relies on: `strip`,
    `upper`, `isdigit`, `replace(old, new, 1)`, `startswith`, the `in`
    substring test, decimal formatting of integers in f-strings, and the
    truthiness of an optional string. */
module Text {
  import opened Wrappers

  /** Python's `str.isspace` for one character. */
  predicate IsSpace(c: char) {
    || c == ' '
    || ('\t' <= c <= '\r')
    || ('\U{1c}' <= c <= '\U{1f}')
    || c == '\U{85}' || c == '\U{a0}' || c == '\U{1680}'
    || ('\U{2000}' <= c <= '\U{200a}')
    || c == '\U{2028}' || c == '\U{2029}' || c == '\U{202f}'
    || c == '\U{205f}' || c == '\U{3000}'
  }

  predicate AllSpace(s: string) {
    forall k :: 0 <= k < |s| ==> IsSpace(s[k])
  }

  /** Neither end of `s` is whitespace. */
  predicate IsStripped(s: string) {
    s == [] || (!IsSpace(s[0]) && !IsSpace(s[|s| - 1]))
  }

  /** `str.lstrip()`: the longest suffix of `s` that does not start with whitespace. */
  function StripLeft(s: string): (r: string)
    ensures |r| <= |s| && r == s[|s| - |r|..]
    ensures AllSpace(s[..|s| - |r|])
    ensures r != [] ==> !IsSpace(r[0])
  {
    if |s| > 0 && IsSpace(s[0]) then
      var r := StripLeft(s[1..]);
      assert s[..|s| - |r|] == [s[0]] + s[1..][..|s| - 1 - |r|];
      r
    else s
  }

  /** `str.rstrip()`: the longest prefix of `s` that does not end with whitespace. */
  function StripRight(s: string): (r: string)
    ensures |r| <= |s| && r == s[..|r|]
    ensures AllSpace(s[|r|..])
    ensures r != [] ==> !IsSpace(r[|r| - 1])
  {
    if |s| > 0 && IsSpace(s[|s| - 1]) then
      var r := StripRight(s[..|s| - 1]);
      assert s[|r|..] == s[..|s| - 1][|r|..] + [s[|s| - 1]];
      r
    else s
  }

  /** `str.strip()`. */
  function Strip(s: string): (r: string)
    ensures IsStripped(r) && |r| <= |s|
    ensures r == [] <==> AllSpace(s)
    ensures IsStripped(s) ==> r == s
  {
    StripBothEnds(s);
    StripRight(StripLeft(s))
  }

  lemma StripBothEnds(s: string)
    ensures var r := StripRight(StripLeft(s));
      && IsStripped(r)
      && (r == [] <==> AllSpace(s))
      && (IsStripped(s) ==> r == s)
  {
    StripEnds(s);
    StripEmpty(s);
    StripKeeps(s);
  }

  /** Neither end of the result is whitespace: the right cut keeps the first
      character of the left cut's result. */
  lemma StripEnds(s: string)
    ensures IsStripped(StripRight(StripLeft(s)))
  {
    var l := StripLeft(s);
    var r := StripRight(l);
    assert r != [] ==> r[0] == l[0];
  }

  /** Stripping leaves nothing exactly when there was only whitespace. */
  lemma StripEmpty(s: string)
    ensures StripRight(StripLeft(s)) == [] <==> AllSpace(s)
  {
    var l := StripLeft(s);
    var r := StripRight(l);
    AllSpaceSplit(s, |s| - |l|);
    assert l != [] ==> !AllSpace(l);
    assert r == [] ==> l[|r|..] == l;
  }

  /** A cut from either end removes a whitespace character there, so a string
      whose ends are not whitespace comes back unchanged. */
  lemma StripKeeps(s: string)
    ensures IsStripped(s) ==> StripRight(StripLeft(s)) == s
  {
    var l := StripLeft(s);
    var r := StripRight(l);
    var cut := |s| - |l|;
    SpacePrefixFirst(s, cut);
    SpaceSuffixLast(l, |r|);
    if IsStripped(s) && s != [] {
      assert cut == 0;
      assert l == s[0..] == s;
      assert |r| == |l|;
      assert r == l[..|l|] == l;
    }
  }

  lemma SpacePrefixFirst(s: string, i: nat)
    requires i <= |s|
    ensures 0 < i && AllSpace(s[..i]) ==> IsSpace(s[0])
  {
    if 0 < i {
      assert s[..i][0] == s[0];
    }
  }

  lemma SpaceSuffixLast(s: string, i: nat)
    requires i <= |s|
    ensures i < |s| && AllSpace(s[i..]) ==> IsSpace(s[|s| - 1])
  {
    if i < |s| {
      assert s[i..][|s| - i - 1] == s[|s| - 1];
    }
  }

  lemma AllSpaceSplit(s: string, i: nat)
    requires i <= |s|
    ensures AllSpace(s) <==> AllSpace(s[..i]) && AllSpace(s[i..])
  {
    if AllSpace(s[..i]) && AllSpace(s[i..]) {
      forall k | 0 <= k < |s| ensures IsSpace(s[k]) {
        if k < i {
          assert s[k] == s[..i][k];
        } else {
          assert s[k] == s[i..][k - i];
        }
      }
    }
  }

  /** `str.upper()` on ASCII letters. */
  function UpperChar(c: char): char {
    if 'a' <= c <= 'z' then (c as int - 32) as char else c
  }

  function Upper(s: string): string {
    seq(|s|, i requires 0 <= i < |s| => UpperChar(s[i]))
  }

  /** Upper-casing yields one capital letter exactly for that letter in either case. */
  lemma UpperIsLetter(s: string, c: char)
    requires 'A' <= c <= 'Z'
    ensures Upper(s) == [c] <==> s == [c] || s == [(c as int + 32) as char]
  {
    if Upper(s) == [c] {
      assert |s| == 1 && Upper(s)[0] == UpperChar(s[0]);
    }
  }

  predicate IsDigit(c: char) {
    '0' <= c <= '9'
  }

  /** `str.isdigit()` over ASCII digits: non-empty and all digits. */
  predicate IsDigits(s: string) {
    |s| > 0 && forall k :: 0 <= k < |s| ==> IsDigit(s[k])
  }

  /** `s.replace(c, "", 1)`: drop the first occurrence of `c`, if any. */
  function RemoveFirst(s: string, c: char): (r: string)
    ensures multiset(r) == if c in s then multiset(s) - multiset{c} else multiset(s)
    ensures c !in s ==> r == s
  {
    if |s| == 0 then s
    else if s[0] == c then
      assert s == [s[0]] + s[1..];
      s[1..]
    else
      assert s == [s[0]] + s[1..];
      [s[0]] + RemoveFirst(s[1..], c)
  }

  predicate StartsWith(s: string, prefix: string) {
    |prefix| <= |s| && s[..|prefix|] == prefix
  }

  predicate EndsWith(s: string, suffix: string) {
    |suffix| <= |s| && s[|s| - |suffix|..] == suffix
  }

  /** Python's `sub in s` for strings. */
  predicate ContainsSub(s: string, sub: string)
    decreases |s|
  {
    StartsWith(s, sub) || (|s| > 0 && ContainsSub(s[1..], sub))
  }

  /** `sep.join(parts)`. */
  function Join(sep: string, parts: seq<string>): string {
    if |parts| == 0 then ""
    else if |parts| == 1 then parts[0]
    else parts[0] + sep + Join(sep, parts[1..])
  }

  function DigitChar(d: nat): (c: char)
    requires d < 10
    ensures IsDigit(c)
  {
    ('0' as int + d) as char
  }

  /** The decimal form of a natural number, as `f"{n}"` prints it. */
  function Decimal(n: nat): (r: string)
    ensures IsDigits(r)
  {
    if n < 10 then [DigitChar(n)] else Decimal(n / 10) + [DigitChar(n % 10)]
  }

  /** The decimal form of an integer, with a leading `-` when negative. */
  function IntDecimal(i: int): string {
    if i < 0 then "-" + Decimal(-i) else Decimal(i)
  }

  function ParseDecimal(s: string): nat
    requires forall k :: 0 <= k < |s| ==> IsDigit(s[k])
  {
    if |s| == 0 then 0
    else
      assert IsDigit(s[|s| - 1]);
      ParseDecimal(s[..|s| - 1]) * 10 + (s[|s| - 1] as int - '0' as int)
  }

  /** Reading back the decimal form gives the number. */
  lemma {:induction false} DecimalRoundTrip(n: nat)
    ensures ParseDecimal(Decimal(n)) == n
  {
    if n >= 10 {
      DecimalRoundTrip(n / 10);
      var s := Decimal(n);
      assert s[..|s| - 1] == Decimal(n / 10);
    }
  }

  /** Different numbers print differently. */
  lemma DecimalInjective(m: nat, n: nat)
    requires Decimal(m) == Decimal(n)
    ensures m == n
  {
    DecimalRoundTrip(m);
    DecimalRoundTrip(n);
  }

  /** Python truthiness of an optional string: neither `None` nor `""`. */
  predicate Truthy(o: Option<string>) {
    o.Some? && o.value != ""
  }

  /** Python's `o or fallback` for an optional string. */
  function Or(o: Option<string>, fallback: string): (r: string)
    ensures Truthy(o) ==> r == o.value
    ensures !Truthy(o) ==> r == fallback
  {
    if Truthy(o) then o.value else fallback
  }
}
