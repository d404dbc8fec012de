/**
 * The string operations the engine relies on: decimal spelling of a panel
 * index (`String(n)`), the leading-number read of `parseFloat` on a length
 * such as "148mm", and the pieces of the font-name expression
 * `s.split(',')[0].replace(/'/g, '').trim()`.
 */
module Text {

  predicate IsDigit(c: char) {
    '0' <= c <= '9'
  }

  predicate AllDigits(s: string) {
    forall k :: 0 <= k < |s| ==> IsDigit(s[k])
  }

  function DigitChar(d: nat): char
    requires d < 10
  {
    "0123456789"[d]
  }

  function DigitValue(c: char): nat
    requires IsDigit(c)
  {
    (c as int - '0' as int) as nat
  }

  /** `String(n)` for a non-negative integer: its decimal digits, no leading zero. */
  function NatToString(n: nat): (s: string)
    ensures |s| > 0 && AllDigits(s)
    ensures |s| > 1 ==> s[0] != '0'
    ensures n < 10 <==> |s| == 1
  {
    if n < 10 then [DigitChar(n)] else NatToString(n / 10) + [DigitChar(n % 10)]
  }

  /** The number a string of decimal digits spells (0 for the empty string). */
  function DigitsValue(s: string): nat
    requires AllDigits(s)
  {
    if s == [] then 0 else DigitsValue(s[..|s| - 1]) * 10 + DigitValue(s[|s| - 1])
  }

  /** Reading back the decimal spelling of n gives n. */
  lemma {:induction false} DigitsValueOfNatToString(n: nat)
    ensures DigitsValue(NatToString(n)) == n
  {
    var s := NatToString(n);
    if n >= 10 {
      DigitsValueOfNatToString(n / 10);
      assert s[..|s| - 1] == NatToString(n / 10);
    }
  }

  /** Distinct indices have distinct spellings, so they never share a content record. */
  lemma NatToStringInjective(m: nat, n: nat)
    ensures NatToString(m) == NatToString(n) <==> m == n
  {
    if NatToString(m) == NatToString(n) {
      DigitsValueOfNatToString(m);
      DigitsValueOfNatToString(n);
    }
  }

  /** The longest prefix of s made of decimal digits. */
  function LeadingDigits(s: string): (d: string)
    ensures AllDigits(d) && d <= s
    ensures d == s || !IsDigit(s[|d|])
  {
    if s != [] && IsDigit(s[0]) then [s[0]] + LeadingDigits(s[1..]) else []
  }

  /** Digits followed by a non-digit suffix: the leading digits are exactly those digits. */
  lemma {:induction false} LeadingDigitsOfNumberThenUnit(d: string, unit: string)
    requires AllDigits(d)
    requires unit == [] || !IsDigit(unit[0])
    ensures LeadingDigits(d + unit) == d
  {
    if d != [] {
      assert (d + unit)[1..] == d[1..] + unit;
      LeadingDigitsOfNumberThenUnit(d[1..], unit);
    }
  }

  /** `s.split(',')[0]`: everything before the first comma. */
  function FirstSegment(s: string): (r: string)
    ensures r <= s && ',' !in r
    ensures r == s || s[|r|] == ','
  {
    if s == [] || s[0] == ',' then [] else [s[0]] + FirstSegment(s[1..])
  }

  /** `s.replace(/'/g, '')`: s with every single quote removed, order kept. */
  function RemoveQuotes(s: string): (r: string)
    ensures forall c :: c in r <==> c in s && c != '\''
    ensures '\'' !in s ==> r == s
  {
    if s == [] then []
    else if s[0] == '\'' then RemoveQuotes(s[1..])
    else [s[0]] + RemoveQuotes(s[1..])
  }

  /** Removing quotes works piece by piece: it distributes over concatenation. */
  lemma {:induction false} RemoveQuotesConcat(a: string, b: string)
    ensures RemoveQuotes(a + b) == RemoveQuotes(a) + RemoveQuotes(b)
  {
    if a == [] {
      assert a + b == b;
    } else {
      var ab := a + b;
      assert ab[0] == a[0];
      assert ab[1..] == a[1..] + b;
      RemoveQuotesConcat(a[1..], b);
      if a[0] == '\'' {
        calc {
          RemoveQuotes(ab);
          RemoveQuotes(a[1..] + b);
          RemoveQuotes(a[1..]) + RemoveQuotes(b);
          RemoveQuotes(a) + RemoveQuotes(b);
        }
      } else {
        calc {
          RemoveQuotes(ab);
          [a[0]] + RemoveQuotes(a[1..] + b);
          [a[0]] + (RemoveQuotes(a[1..]) + RemoveQuotes(b));
          ([a[0]] + RemoveQuotes(a[1..])) + RemoveQuotes(b);
          RemoveQuotes(a) + RemoveQuotes(b);
        }
      }
    }
  }

  /** The characters `String.prototype.trim` strips: ECMAScript WhiteSpace and LineTerminator. */
  predicate IsJsWhitespace(c: char) {
    c == ' ' || c == '\t' || c == '\n' || c == '\r' || c == '\U{000B}' || c == '\U{000C}'
    || c == '\U{00A0}' || c == '\U{1680}' || ('\U{2000}' <= c <= '\U{200A}')
    || c == '\U{2028}' || c == '\U{2029}' || c == '\U{202F}' || c == '\U{205F}'
    || c == '\U{3000}' || c == '\U{FEFF}'
  }

  predicate AllWhitespace(s: string) {
    forall k :: 0 <= k < |s| ==> IsJsWhitespace(s[k])
  }

  lemma AllWhitespaceAppend(a: string, b: string)
    requires AllWhitespace(a) && AllWhitespace(b)
    ensures AllWhitespace(a + b)
  {
    forall k | 0 <= k < |a + b| ensures IsJsWhitespace((a + b)[k]) {
      if k < |a| {
        assert (a + b)[k] == a[k];
      } else {
        assert (a + b)[k] == b[k - |a|];
      }
    }
  }

  /** Neither end of s is whitespace. */
  predicate Trimmed(s: string) {
    s == [] || (!IsJsWhitespace(s[0]) && !IsJsWhitespace(s[|s| - 1]))
  }

  /** s without its leading whitespace: a suffix of s. */
  function TrimStart(s: string): (r: string)
    ensures |r| <= |s| && r == s[|s| - |r|..]
    ensures AllWhitespace(s[..|s| - |r|])
    ensures r == [] || !IsJsWhitespace(r[0])
    ensures s == [] || !IsJsWhitespace(s[0]) ==> r == s
  {
    if s != [] && IsJsWhitespace(s[0]) then
      var r := TrimStart(s[1..]);
      assert s[..|s| - |r|] == [s[0]] + s[1..][..|s| - 1 - |r|];
      AllWhitespaceAppend([s[0]], s[1..][..|s| - 1 - |r|]);
      r
    else s
  }

  /** s without its trailing whitespace: a prefix of s. */
  function TrimEnd(s: string): (r: string)
    ensures r <= s
    ensures AllWhitespace(s[|r|..])
    ensures r == [] || !IsJsWhitespace(r[|r| - 1])
    ensures s == [] || !IsJsWhitespace(s[|s| - 1]) ==> r == s
  {
    if s != [] && IsJsWhitespace(s[|s| - 1]) then
      var r := TrimEnd(s[..|s| - 1]);
      assert s[|r|..] == s[..|s| - 1][|r|..] + [s[|s| - 1]];
      AllWhitespaceAppend(s[..|s| - 1][|r|..], [s[|s| - 1]]);
      r
    else s
  }

  /** `s.trim()`: s with whitespace stripped at both ends and nothing else changed. */
  function Trim(s: string): (r: string)
    ensures Trimmed(r)
    ensures forall c :: c in r ==> c in s
    ensures Trimmed(s) ==> r == s
  {
    var t := TrimStart(s);
    var r := TrimEnd(t);
    TrimBothEnds(s);
    PrefixOfSuffixChars(s, t, r);
    r
  }

  /** The trimmed string is the slice of s between a whitespace prefix and a whitespace suffix. */
  lemma TrimIsSlice(s: string)
    ensures StrippedAt(s, Trim(s), |s| - |TrimStart(s)|)
  {
    var t := TrimStart(s);
    var r := TrimEnd(t);
    StrippedFromParts(s, t, r);
  }

  lemma StrippedFromParts(s: string, t: string, r: string)
    requires |t| <= |s| && t == s[|s| - |t|..] && r <= t
    requires AllWhitespace(s[..|s| - |t|]) && AllWhitespace(t[|r|..])
    ensures StrippedAt(s, r, |s| - |t|)
  {
    SuffixPrefixSlices(s, t, r);
  }

  /** A prefix r of a suffix t of s is the slice of s where t starts, and what follows r in s follows it in t. */
  lemma SuffixPrefixSlices(s: string, t: string, r: string)
    requires |t| <= |s| && t == s[|s| - |t|..] && r <= t
    ensures var i := |s| - |t|; r == s[i..i + |r|] && s[i + |r|..] == t[|r|..]
  {
  }

  /** r is the slice of s at i, with only whitespace before and after it. */
  predicate StrippedAt(s: string, r: string, i: int) {
    0 <= i <= |s| - |r| && r == s[i..i + |r|] && AllWhitespace(s[..i]) && AllWhitespace(s[i + |r|..])
  }

  /** Stripping the start and then the end leaves neither end whitespace, and a trimmed string as it was. */
  lemma TrimBothEnds(s: string)
    ensures Trimmed(TrimEnd(TrimStart(s)))
    ensures Trimmed(s) ==> TrimEnd(TrimStart(s)) == s
  {
    var t := TrimStart(s);
    var r := TrimEnd(t);
    if r != [] {
      assert r[0] == t[0];
    }
    if Trimmed(s) && s != [] {
      assert t == s;
    }
  }

  /** A prefix of a suffix holds only characters of the whole. */
  lemma PrefixOfSuffixChars(s: string, t: string, r: string)
    requires |t| <= |s| && t == s[|s| - |t|..] && r <= t
    ensures forall c :: c in r ==> c in s
  {
    forall c | c in r ensures c in s {
      var k :| 0 <= k < |r| && r[k] == c;
      assert s[|s| - |t| + k] == c;
    }
  }
}
