/**
 * The .NET string and char operations the core relies on, written out:
 * whitespace tests, trimming, ASCII case mapping, prefix tests, character
 * replacement, splitting and joining, and the Int32 <-> decimal text
 * conversions (`int.ToString()` and `int.TryParse`).
 */
module Text {
  import opened Outcomes

  // ---------------------------------------------------------------------
  // Characters

  /** `char.IsWhiteSpace`: the characters Unicode marks White_Space. */
  predicate IsWhiteSpace(c: char) {
    c == ' ' || ('\t' <= c <= '\r') || c == '\U{0085}' || c == '\U{00A0}' || c == '\U{1680}'
    || ('\U{2000}' <= c <= '\U{200A}') || c == '\U{2028}' || c == '\U{2029}' || c == '\U{202F}'
    || c == '\U{205F}' || c == '\U{3000}'
  }

  /** The white space `int.TryParse` skips around a number. */
  predicate IsParseWhite(c: char) {
    c == ' ' || ('\t' <= c <= '\r')
  }

  predicate IsDigit(c: char) { '0' <= c <= '9' }

  predicate IsLetter(c: char) { ('a' <= c <= 'z') || ('A' <= c <= 'Z') }

  predicate IsLetterOrDigit(c: char) { IsLetter(c) || IsDigit(c) }

  function LowerChar(c: char): (r: char)
    ensures 'A' <= c <= 'Z' ==> 'a' <= r <= 'z'
    ensures !('A' <= c <= 'Z') ==> r == c
  {
    if 'A' <= c <= 'Z' then (c as int + 32) as char else c
  }

  function UpperChar(c: char): (r: char)
    ensures 'a' <= c <= 'z' ==> 'A' <= r <= 'Z'
    ensures !('a' <= c <= 'z') ==> r == c
  {
    if 'a' <= c <= 'z' then (c as int - 32) as char else c
  }

  // ---------------------------------------------------------------------
  // Whole strings

  predicate IsBlank(s: string) {
    forall i :: 0 <= i < |s| ==> IsWhiteSpace(s[i])
  }

  /** `string.IsNullOrWhiteSpace`; `None` stands for `null`. */
  predicate IsNullOrWhiteSpace(s: Option<string>) {
    s.None? || IsBlank(s.value)
  }

  /** `string.IsNullOrEmpty`; `None` stands for `null`. */
  predicate IsNullOrEmpty(s: Option<string>) {
    s.None? || s.value == ""
  }

  /** `string.ToLower()` restricted to ASCII letters. */
  function Lower(s: string): (r: string)
    ensures |r| == |s| && forall i :: 0 <= i < |s| ==> r[i] == LowerChar(s[i])
  {
    seq(|s|, i requires 0 <= i < |s| => LowerChar(s[i]))
  }

  /** `string.ToUpper()` restricted to ASCII letters. */
  function Upper(s: string): (r: string)
    ensures |r| == |s| && forall i :: 0 <= i < |s| ==> r[i] == UpperChar(s[i])
  {
    seq(|s|, i requires 0 <= i < |s| => UpperChar(s[i]))
  }

  /** Equality ignoring (ASCII) letter case, as `StringComparison.InvariantCultureIgnoreCase`. */
  predicate EqualsIgnoreCase(a: string, b: string) {
    |a| == |b| && forall i :: 0 <= i < |a| ==> UpperChar(a[i]) == UpperChar(b[i])
  }

  /** Ordinal `s.StartsWith(p)`. */
  predicate StartsWith(s: string, p: string) {
    |p| <= |s| && s[..|p|] == p
  }

  /** `s.Replace(from, to)` for single characters. */
  function ReplaceChar(s: string, from: char, to: char): (r: string)
    ensures |r| == |s|
    ensures forall i :: 0 <= i < |s| ==> r[i] == (if s[i] == from then to else s[i])
  {
    seq(|s|, i requires 0 <= i < |s| => if s[i] == from then to else s[i])
  }

  /** Drops the leading characters satisfying `p`. */
  function TrimStartWhere(s: string, p: char -> bool): (r: string)
    ensures |r| <= |s| && r == s[|s| - |r|..]
    ensures forall i :: 0 <= i < |s| - |r| ==> p(s[i])
    ensures r == [] || !p(r[0])
    decreases |s|
  {
    if |s| > 0 && p(s[0]) then TrimStartWhere(s[1..], p) else s
  }

  /** Drops the trailing characters satisfying `p`. */
  function TrimEndWhere(s: string, p: char -> bool): (r: string)
    ensures |r| <= |s| && r == s[..|r|]
    ensures forall i :: |r| <= i < |s| ==> p(s[i])
    ensures r == [] || !p(r[|r| - 1])
    decreases |s|
  {
    if |s| > 0 && p(s[|s| - 1]) then TrimEndWhere(s[..|s| - 1], p) else s
  }

  /** `string.Trim()`. */
  function Trim(s: string): (r: string) {
    TrimEndWhere(TrimStartWhere(s, IsWhiteSpace), IsWhiteSpace)
  }

  /** Trimming removes exactly the surrounding white space: the result is empty
    * iff the input was blank, and otherwise begins and ends with a non-white character. */
  lemma TrimShape(s: string)
    ensures IsBlank(s) <==> Trim(s) == []
    ensures Trim(s) != [] ==> !IsWhiteSpace(Trim(s)[0]) && !IsWhiteSpace(Trim(s)[|Trim(s)| - 1])
    ensures |Trim(s)| <= |s|
  {
    var t := TrimStartWhere(s, IsWhiteSpace);
    var r := TrimEndWhere(t, IsWhiteSpace);
    if r != [] {
      assert r[0] == t[0];
      assert !IsWhiteSpace(s[|s| - |t|]);
    }
  }

  /** Trimming an already trimmed string changes nothing. */
  lemma TrimIdempotent(s: string)
    ensures Trim(Trim(s)) == Trim(s)
  {
    TrimShape(s);
    var r := Trim(s);
    if r != [] {
      assert TrimStartWhere(r, IsWhiteSpace) == r;
      assert TrimEndWhere(r, IsWhiteSpace) == r;
    }
  }

  /** Where the text after the last `c` of `s` begins: just past that `c`, or 0 when `s` has none. */
  function AfterLastIndex(s: string, c: char): (r: nat)
    ensures r <= |s|
    ensures r == 0 || s[r - 1] == c
    ensures forall j :: r <= j < |s| ==> s[j] != c
    decreases |s|
  {
    if |s| == 0 then 0
    else if s[|s| - 1] == c then |s|
    else AfterLastIndex(s[..|s| - 1], c)
  }

  /** Only the position just past the last `c` has no `c` after it and a `c` (or the start) before it. */
  lemma AfterLastIndexUnique(s: string, c: char, k: nat)
    requires k <= |s| && (k == 0 || s[k - 1] == c)
    requires forall j :: k <= j < |s| ==> s[j] != c
    ensures AfterLastIndex(s, c) == k
  {
  }

  /** `string.Split(c).Last()`: the text after the last `c`, or all of `s` when it has none. */
  function AfterLast(s: string, c: char): (r: string)
    ensures |r| <= |s| && r == s[|s| - |r|..]
    ensures c !in r
    ensures |r| == |s| || s[|s| - |r| - 1] == c
  {
    s[AfterLastIndex(s, c)..]
  }

  /** `AfterLast` is the only suffix without `c` that is preceded by `c` or is all of `s`. */
  lemma AfterLastUnique(s: string, c: char, t: string)
    requires |t| <= |s| && t == s[|s| - |t|..] && c !in t
    requires |t| == |s| || s[|s| - |t| - 1] == c
    ensures AfterLast(s, c) == t
  {
    var k := |s| - |t|;
    assert forall j :: k <= j < |s| ==> s[j] == t[j - k];
    AfterLastIndexUnique(s, c, k);
  }

  /** After appending `c` and a text without `c`, the text after the last `c` is that text. */
  lemma AfterLastAppended(a: string, c: char, b: string)
    requires c !in b
    ensures AfterLast(a + [c] + b, c) == b
  {
    var s := a + [c] + b;
    assert s[|s| - |b| - 1] == c;
    assert s[|s| - |b|..] == b;
    AfterLastUnique(s, c, b);
  }

  /** Index of the first `c` in `s`. */
  function IndexOf(s: string, c: char): (r: nat)
    requires c in s
    ensures r < |s| && s[r] == c && c !in s[..r]
  {
    if s[0] == c then 0 else 1 + IndexOf(s[1..], c)
  }

  /** `string.Join(sep, pieces)`. */
  function Join(pieces: seq<string>, sep: string): string {
    if |pieces| == 0 then []
    else if |pieces| == 1 then pieces[0]
    else pieces[0] + sep + Join(pieces[1..], sep)
  }

  /** `s.Split(c)`. */
  function SplitOn(s: string, c: char): (r: seq<string>)
    ensures |r| >= 1
    decreases |s|
  {
    if c !in s then [s]
    else
      var i := IndexOf(s, c);
      [s[..i]] + SplitOn(s[i + 1..], c)
  }

  /** Splitting a join on a separator that occurs in no piece gives the pieces back. */
  lemma {:induction false} SplitJoin(pieces: seq<string>, c: char)
    requires |pieces| >= 1
    requires forall i :: 0 <= i < |pieces| ==> c !in pieces[i]
    ensures SplitOn(Join(pieces, [c]), c) == pieces
  {
    if |pieces| > 1 {
      var rest := Join(pieces[1..], [c]);
      var s := pieces[0] + [c] + rest;
      assert s[|pieces[0]|] == c;
      assert s[..|pieces[0]|] == pieces[0];
      assert c !in s[..|pieces[0]|];
      var i := IndexOf(s, c);
      assert i == |pieces[0]|;
      assert s[i + 1..] == rest;
      SplitJoin(pieces[1..], c);
    }
  }

  // ---------------------------------------------------------------------
  // Decimal text of integers

  const Int32Min: int := -0x8000_0000
  const Int32Max: int := 0x7FFF_FFFF

  predicate AllDigits(s: string) {
    forall i :: 0 <= i < |s| ==> IsDigit(s[i])
  }

  function DigitChar(d: nat): (c: char)
    requires d < 10
    ensures IsDigit(c)
  {
    ('0' as int + d) as char
  }

  function DigitValue(c: char): (d: nat)
    requires IsDigit(c)
    ensures d < 10
  {
    c as int - '0' as int
  }

  /** Decimal digits of `n`, without leading zeros. */
  function NatToString(n: nat): (r: string)
    ensures |r| >= 1 && AllDigits(r)
    decreases n
  {
    if n < 10 then [DigitChar(n)] else NatToString(n / 10) + [DigitChar(n % 10)]
  }

  /** `int.ToString()` with the invariant culture's "-" sign. */
  function IntToString(n: int): (r: string)
    ensures |r| >= 1
  {
    if n < 0 then "-" + NatToString(-n) else NatToString(n)
  }

  /** The number a string of decimal digits denotes. */
  function DigitsValue(s: string): nat
    requires AllDigits(s)
  {
    if |s| == 0 then 0 else DigitsValue(s[..|s| - 1]) * 10 + DigitValue(s[|s| - 1])
  }

  lemma {:induction false} DigitsValueOfNatToString(n: nat)
    ensures DigitsValue(NatToString(n)) == n
    decreases n
  {
    var s := NatToString(n);
    if n >= 10 {
      DigitsValueOfNatToString(n / 10);
      assert s[..|s| - 1] == NatToString(n / 10);
    }
  }

  /** `int.TryParse(s, out v)` with `NumberStyles.Integer`: optional surrounding
    * white space, an optional sign, ASCII digits, and a value in the Int32 range. */
  function ParseInt32(s: string): (r: Option<int>)
    ensures r.Some? ==> Int32Min <= r.value <= Int32Max
  {
    var t := TrimEndWhere(TrimStartWhere(s, IsParseWhite), IsParseWhite);
    var negative := |t| > 0 && t[0] == '-';
    var body := if |t| > 0 && (t[0] == '-' || t[0] == '+') then t[1..] else t;
    if |body| == 0 || !AllDigits(body) then None
    else
      var v: int := if negative then -(DigitsValue(body) as int) else DigitsValue(body);
      if Int32Min <= v <= Int32Max then Some(v) else None
  }

  /** A text that neither starts nor ends with white space is not trimmed. */
  lemma ParseTrimKeeps(s: string)
    requires |s| > 0 && !IsParseWhite(s[0]) && !IsParseWhite(s[|s| - 1])
    ensures TrimEndWhere(TrimStartWhere(s, IsParseWhite), IsParseWhite) == s
  {
    assert TrimStartWhere(s, IsParseWhite) == s;
  }

  /** Unsigned digits parse to their value. */
  lemma ParseUnsigned(d: string)
    requires |d| > 0 && AllDigits(d) && DigitsValue(d) <= Int32Max
    ensures ParseInt32(d) == Some(DigitsValue(d))
  {
    assert IsDigit(d[0]) && IsDigit(d[|d| - 1]);
    ParseTrimKeeps(d);
  }

  /** Digits after a "-" parse to their value negated. */
  lemma ParseNegative(d: string)
    requires |d| > 0 && AllDigits(d) && Int32Min <= -(DigitsValue(d) as int)
    ensures ParseInt32("-" + d) == Some(-(DigitsValue(d) as int))
  {
    var s := "-" + d;
    assert s[|s| - 1] == d[|d| - 1] && IsDigit(d[|d| - 1]);
    ParseTrimKeeps(s);
    assert s[1..] == d;
  }

  /** Parsing the text `ToString` produces gives the number back. */
  lemma IntToStringRoundTrip(n: int)
    requires Int32Min <= n <= Int32Max
    ensures ParseInt32(IntToString(n)) == Some(n)
  {
    if n < 0 {
      var m: nat := -n;
      DigitsValueOfNatToString(m);
      ParseNegative(NatToString(m));
      assert IntToString(n) == "-" + NatToString(m);
    } else {
      DigitsValueOfNatToString(n);
      ParseUnsigned(NatToString(n));
      assert IntToString(n) == NatToString(n);
    }
  }

  /** The text of a number starts with "-" exactly when the number is negative. */
  lemma IntToStringSign(n: int)
    ensures IntToString(n)[0] == '-' <==> n < 0
  {
    if n >= 0 {
      assert IsDigit(NatToString(n)[0]);
    }
  }

  /** The text of a number holds only digits and the sign. */
  lemma IntToStringChars(n: int)
    ensures forall i :: 0 <= i < |IntToString(n)| ==> IntToString(n)[i] == '-' || IsDigit(IntToString(n)[i])
  {
    if n < 0 {
      assert IntToString(n) == "-" + NatToString(-n);
    }
  }

  /** Different numbers have different decimal texts. */
  lemma IntToStringInjective(a: int, b: int)
    ensures IntToString(a) == IntToString(b) ==> a == b
  {
    if IntToString(a) == IntToString(b) {
      IntToStringSign(a);
      IntToStringSign(b);
      if a < 0 {
        assert IntToString(a)[1..] == NatToString(-a);
        assert IntToString(b)[1..] == NatToString(-b);
        DigitsValueOfNatToString(-a);
        DigitsValueOfNatToString(-b);
      } else {
        DigitsValueOfNatToString(a);
        DigitsValueOfNatToString(b);
      }
    }
  }
}
