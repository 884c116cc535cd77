/** String operations the dashboard relies on, with JavaScript's meaning:
    `startsWith`, `endsWith`, `substring(0, n)`, `split(c)[0]`, `trim() === ''`,
    the decimal text of an integer (`n.toString()`, template literals) and
    `Array.prototype.join` / `String.prototype.split`. */
module Text {
  import opened Common

  predicate StartsWith(s: string, prefix: string)
  {
    |prefix| <= |s| && s[..|prefix|] == prefix
  }

  predicate EndsWith(s: string, suffix: string)
  {
    |suffix| <= |s| && s[|s| - |suffix|..] == suffix
  }

  /** `s.substring(0, n)`: the first `n` characters, or all of `s` when it is
      shorter. */
  function Truncate(s: string, n: nat): (r: string)
    ensures |r| <= n && |r| <= |s|
    ensures StartsWith(s, r)
    ensures |s| <= n ==> r == s
    ensures n <= |s| ==> |r| == n
  {
    if |s| <= n then s else s[..n]
  }

  /** `s.split(c)[0]`: the text before the first occurrence of `c`. */
  function BeforeFirst(s: string, c: char): (r: string)
    ensures StartsWith(s, r)
    ensures c !in r
    ensures |r| < |s| ==> s[|r|] == c
  {
    if s == [] then []
    else if s[0] == c then []
    else [s[0]] + BeforeFirst(s[1..], c)
  }

  /** The characters `String.prototype.trim` and `parseInt` skip: ECMAScript's
      WhiteSpace (tab, vertical tab, form feed, the byte-order mark and every
      space separator) and LineTerminator (line feed, carriage return, and the
      line and paragraph separators). */
  predicate IsWhitespace(ch: char)
  {
    || ch == '\t' || ch == '\U{000B}' || ch == '\U{000C}' || ch == '\U{FEFF}'
    || ch == ' ' || ch == '\U{00A0}' || ch == '\U{1680}' || '\U{2000}' <= ch <= '\U{200A}'
    || ch == '\U{202F}' || ch == '\U{205F}' || ch == '\U{3000}'
    || ch == '\n' || ch == '\r' || ch == '\U{2028}' || ch == '\U{2029}'
  }

  /** `!s.trim()`: the string is empty once surrounding whitespace is removed. */
  predicate IsBlank(s: string)
  {
    forall i :: 0 <= i < |s| ==> IsWhitespace(s[i])
  }

  // ---------------------------------------------------------------------
  // Decimal text of integers

  predicate IsDigit(ch: char)
  {
    '0' <= ch <= '9'
  }

  predicate AllDigits(s: string)
  {
    forall i :: 0 <= i < |s| ==> IsDigit(s[i])
  }

  function DigitChar(d: nat): (ch: char)
    requires d < 10
    ensures IsDigit(ch)
  {
    "0123456789"[d]
  }

  function DigitValue(ch: char): (d: nat)
    requires IsDigit(ch)
    ensures d < 10
  {
    (ch as int - '0' as int) as nat
  }

  /** Decimal digits of a natural number, most significant first, no leading
      zeros. */
  function NatToString(n: nat): (r: string)
    ensures |r| >= 1 && AllDigits(r)
    ensures n >= 10 ==> r[0] != '0'
  {
    if n < 10 then [DigitChar(n)] else NatToString(n / 10) + [DigitChar(n % 10)]
  }

  /** `String(n)` for an integer: a minus sign for negatives. */
  function IntToString(n: int): (r: string)
    ensures |r| >= 1
    ensures n >= 0 <==> AllDigits(r)
  {
    if n < 0 then
      var r := "-" + NatToString(-n);
      assert !IsDigit(r[0]);
      r
    else NatToString(n)
  }

  /** The value of a string of decimal digits (read left to right). */
  function DigitsValue(s: string): nat
    requires AllDigits(s)
  {
    if s == [] then 0 else DigitsValue(s[..|s| - 1]) * 10 + DigitValue(s[|s| - 1])
  }

  /** Reads back an optionally signed decimal integer; anything else is
      `None`. */
  function ParseInt(s: string): Option<int>
  {
    if |s| >= 1 && AllDigits(s) then Some(DigitsValue(s) as int)
    else if |s| >= 2 && s[0] == '-' && AllDigits(s[1..]) then Some(0 - DigitsValue(s[1..]))
    else None
  }

  /** The longest prefix of decimal digits. */
  function LeadingDigits(s: string): (r: string)
    ensures StartsWith(s, r) && AllDigits(r)
    ensures |r| < |s| ==> !IsDigit(s[|r|])
  {
    if s == [] || !IsDigit(s[0]) then [] else [s[0]] + LeadingDigits(s[1..])
  }

  /** `s` without its leading whitespace. */
  function TrimStart(s: string): (r: string)
    ensures EndsWith(s, r)
    ensures r == [] || !IsWhitespace(r[0])
    ensures IsBlank(s[..|s| - |r|])
  {
    if s == [] || !IsWhitespace(s[0]) then s
    else
      var r := TrimStart(s[1..]);
      assert s[..|s| - |r|] == [s[0]] + s[1..][..|s[1..]| - |r|];
      r
  }

  /** The value of the digits `body` starts with, or `None` when it does
      not start with one. */
  function LeadingValue(body: string): (r: Option<nat>)
    ensures r.Some? ==> |body| > 0 && IsDigit(body[0])
  {
    var digits := LeadingDigits(body);
    if digits == [] then None else Some(DigitsValue(digits))
  }

  /** An optional sign, then the leading digits. */
  function SignedValue(t: string): (r: Option<int>)
    ensures r.Some? ==> exists k :: 0 <= k < |t| && IsDigit(t[k])
  {
    if |t| > 0 && (t[0] == '-' || t[0] == '+') then
      var v := LeadingValue(t[1..]);
      if v.None? then None
      else
        assert t[1] == t[1..][0];
        Some(if t[0] == '-' then 0 - v.value else v.value)
    else
      var v := LeadingValue(t);
      if v.None? then None else Some(v.value)
  }

  /** JavaScript's `parseInt(s)` for decimal text: leading whitespace, an
      optional sign, then as many digits as there are; the rest is ignored.
      No digits at all is `NaN`, here `None`. */
  function JsParseInt(s: string): (r: Option<int>)
    ensures r.Some? ==> exists k :: 0 <= k < |s| && IsDigit(s[k])
  {
    var t := TrimStart(s);
    var r := SignedValue(t);
    if r.Some? then
      var k :| 0 <= k < |t| && IsDigit(t[k]);
      assert s[|s| - |t| + k] == t[k];
      r
    else r
  }

  /** `parseInt(s) || d`: `NaN` and zero are both falsy, so both give `d`. */
  function IntOr(p: Option<int>, d: int): (r: int)
    ensures p.Some? && p.value != 0 ==> r == p.value
    ensures p.None? || p.value == 0 ==> r == d
  {
    if p.Some? && p.value != 0 then p.value else d
  }

  /** `parseFloat(s) || d`, where `p` is what `parseFloat` returned (`None`
      for `NaN`); `parseFloat` itself is not part of this model. */
  function RealOr(p: Option<real>, d: real): (r: real)
    ensures p.Some? && p.value != 0.0 ==> r == p.value
    ensures p.None? || p.value == 0.0 ==> r == d
  {
    if p.Some? && p.value != 0.0 then p.value else d
  }

  lemma {:induction false} NatToStringValue(n: nat)
    ensures DigitsValue(NatToString(n)) == n
  {
    if n >= 10 {
      var r := NatToString(n);
      NatToStringValue(n / 10);
      assert r[..|r| - 1] == NatToString(n / 10);
      assert DigitValue(DigitChar(n % 10)) == n % 10;
    } else {
      assert DigitValue(DigitChar(n)) == n;
    }
  }

  /** A minus sign in front of digits reads back as the negated value. */
  lemma ParseIntOfNegative(r: string)
    requires |r| >= 2 && r[0] == '-' && AllDigits(r[1..])
    ensures ParseInt(r) == Some(0 - DigitsValue(r[1..]))
  {
    assert !IsDigit(r[0]);
  }

  /** The text of a negative integer: a minus sign, then digits worth its
      magnitude. */
  lemma NegativeText(n: int)
    requires n < 0
    ensures var r := IntToString(n);
      |r| >= 2 && r[0] == '-' && AllDigits(r[1..]) && DigitsValue(r[1..]) == -n
  {
    SignThenDigits(IntToString(n), -n);
  }

  /** The text of a non-negative integer: digits worth it. */
  lemma NonNegativeText(n: int)
    requires n >= 0
    ensures var r := IntToString(n);
      |r| >= 1 && AllDigits(r) && DigitsValue(r) == n
  {
    NatToStringValue(n);
  }

  /** A minus sign before the digits of `m`. */
  lemma SignThenDigits(r: string, m: nat)
    requires r == "-" + NatToString(m)
    ensures |r| >= 2 && r[0] == '-' && AllDigits(r[1..]) && DigitsValue(r[1..]) == m
  {
    NatToStringValue(m);
    assert r[1..] == NatToString(m);
  }

  /** The decimal text of an integer reads back as that integer. */
  lemma IntToStringRoundTrip(n: int)
    ensures ParseInt(IntToString(n)) == Some(n)
  {
    if n < 0 {
      NegativeText(n);
      ParseIntOfNegative(IntToString(n));
    } else {
      NonNegativeText(n);
    }
  }

  lemma {:induction false} LeadingDigitsOfDigits(s: string)
    requires AllDigits(s)
    ensures LeadingDigits(s) == s
  {
    if s != [] {
      LeadingDigitsOfDigits(s[1..]);
    }
  }

  /** Digits alone are read whole by `parseInt`. */
  lemma JsParseIntOfDigits(digits: string)
    requires |digits| >= 1 && AllDigits(digits)
    ensures JsParseInt(digits) == Some(DigitsValue(digits) as int)
  {
    assert !IsWhitespace(digits[0]) && digits[0] != '-' && digits[0] != '+';
    assert TrimStart(digits) == digits;
    LeadingDigitsOfDigits(digits);
    assert LeadingValue(digits) == Some(DigitsValue(digits));
  }

  /** After a minus sign, the digits are read whole and negated. */
  lemma SignedValueOfNegative(t: string)
    requires |t| >= 2 && t[0] == '-' && AllDigits(t[1..])
    ensures SignedValue(t) == Some(0 - DigitsValue(t[1..]))
  {
    LeadingDigitsOfDigits(t[1..]);
    assert LeadingValue(t[1..]) == Some(DigitsValue(t[1..]));
  }

  /** A minus sign and digits are read whole by `parseInt`. */
  lemma JsParseIntOfNegative(r: string)
    requires |r| >= 2 && r[0] == '-' && AllDigits(r[1..])
    ensures JsParseInt(r) == Some(0 - DigitsValue(r[1..]))
  {
    SignedValueOfNegative(r);
    assert !IsWhitespace(r[0]);
    assert TrimStart(r) == r;
  }

  /** A number typed as its decimal text reads back through `parseInt`. */
  lemma JsParseIntOfIntToString(n: int)
    ensures JsParseInt(IntToString(n)) == Some(n)
  {
    if n < 0 {
      NegativeText(n);
      JsParseIntOfNegative(IntToString(n));
    } else {
      NonNegativeText(n);
      JsParseIntOfDigits(IntToString(n));
    }
  }

  /** Text without any digit is `NaN` for `parseInt`. */
  lemma JsParseIntWithoutDigits(s: string)
    requires forall k :: 0 <= k < |s| ==> !IsDigit(s[k])
    ensures JsParseInt(s) == None
  {
  }

  /** Distinct integers have distinct decimal texts. */
  lemma IntToStringInjective(a: int, b: int)
    requires IntToString(a) == IntToString(b)
    ensures a == b
  {
    IntToStringRoundTrip(a);
    IntToStringRoundTrip(b);
  }

  // ---------------------------------------------------------------------
  // Array.prototype.join and String.prototype.split

  /** `xs.join(sep)`: no separator before the first element or after the last;
      `[].join(sep)` is the empty string. */
  function Join(xs: seq<string>, sep: string): (r: string)
  {
    if |xs| == 0 then ""
    else if |xs| == 1 then xs[0]
    else Join(xs[..|xs| - 1], sep) + sep + xs[|xs| - 1]
  }

  /** `s.split(c)` for a one-character separator: the pieces between
      occurrences of `c`; `"".split(c)` is `[""]`. */
  function Split(s: string, c: char): (r: seq<string>)
    ensures |r| >= 1
  {
    if s == [] then [""] else AddChar(Split(s[..|s| - 1], c), s[|s| - 1], c)
  }

  /** Reading one more character: a separator opens a new piece, anything
      else extends the last one. */
  function AddChar(p: seq<string>, ch: char, c: char): (r: seq<string>)
    requires |p| >= 1
    ensures |r| >= 1
  {
    if ch == c then p + [""] else p[..|p| - 1] + [p[|p| - 1] + [ch]]
  }

  lemma {:induction false} SplitWithoutSeparator(s: string, c: char)
    requires c !in s
    ensures Split(s, c) == [s]
  {
    if s != [] {
      assert c !in s[..|s| - 1];
      SplitWithoutSeparator(s[..|s| - 1], c);
      assert s[..|s| - 1] + [s[|s| - 1]] == s;
    }
  }

  lemma SplitSnoc(s: string, ch: char, c: char)
    ensures Split(s + [ch], c) == AddChar(Split(s, c), ch, c)
  {
    assert (s + [ch])[..|s|] == s;
  }

  /** Only the last piece is read into, so pieces in front are kept. */
  lemma AddCharAfter(x: seq<string>, y: seq<string>, ch: char, c: char)
    requires |y| >= 1
    ensures AddChar(x + y, ch, c) == x + AddChar(y, ch, c)
  {
    var xy := x + y;
    assert xy[..|xy| - 1] == x + y[..|y| - 1];
  }

  /** Splitting at one occurrence of the separator splits the result. */
  lemma {:induction false} SplitAtSeparator(a: string, b: string, c: char)
    ensures Split(a + [c] + b, c) == Split(a, c) + Split(b, c)
  {
    if b == [] {
      assert a + [c] + b == a + [c];
      SplitSnoc(a, c, c);
    } else {
      var b0, last := b[..|b| - 1], b[|b| - 1];
      assert a + [c] + b == (a + [c] + b0) + [last];
      assert b0 + [last] == b;
      SplitAtSeparator(a, b0, c);
      SplitSnoc(a + [c] + b0, last, c);
      SplitSnoc(b0, last, c);
      AddCharAfter(Split(a, c), Split(b0, c), last, c);
    }
  }

  /** A slash-free piece after a separator is one more segment. */
  lemma SplitChild(p: string, x: string, c: char)
    requires c !in x
    ensures Split(p + [c] + x, c) == Split(p, c) + [x]
  {
    SplitWithoutSeparator(x, c);
    SplitAtSeparator(p, x, c);
  }

  /** Join and split are inverse when no piece contains the separator: a
      `c`-separated line without quoting reads back as its fields. */
  lemma {:induction false} SplitJoin(xs: seq<string>, c: char)
    requires |xs| >= 1
    requires forall i :: 0 <= i < |xs| ==> c !in xs[i]
    ensures Split(Join(xs, [c]), c) == xs
  {
    if |xs| == 1 {
      SplitWithoutSeparator(xs[0], c);
    } else {
      var init, last := xs[..|xs| - 1], xs[|xs| - 1];
      assert forall i :: 0 <= i < |init| ==> init[i] == xs[i];
      SplitJoin(init, c);
      assert Join(xs, [c]) == Join(init, [c]) + [c] + last;
      SplitAtSeparator(Join(init, [c]), last, c);
      SplitWithoutSeparator(last, c);
      assert init + [last] == xs;
    }
  }

  /** Joining two non-empty runs is joining each and putting one separator
      between them. */
  lemma {:induction false} JoinAppend(a: seq<string>, b: seq<string>, sep: string)
    requires |a| >= 1 && |b| >= 1
    ensures Join(a + b, sep) == Join(a, sep) + sep + Join(b, sep)
  {
    if |b| > 1 {
      var b0 := b[..|b| - 1];
      JoinAppend(a, b0, sep);
      assert (a + b)[..|a + b| - 1] == a + b0;
    } else {
      assert (a + b)[..|a + b| - 1] == a;
    }
  }

  /** A character in neither the pieces nor the separator is not in the
      joined text. */
  lemma {:induction false} JoinAvoids(xs: seq<string>, sep: string, c: char)
    requires c !in sep
    requires forall i :: 0 <= i < |xs| ==> c !in xs[i]
    ensures c !in Join(xs, sep)
  {
    if |xs| > 1 {
      JoinAvoids(xs[..|xs| - 1], sep, c);
    }
  }

  /** A field that contains the separator comes back as two fields. */
  lemma SplitJoinBreaksOnSeparator(c: char)
    requires c != 'a' && c != 'b'
    ensures |Split(Join(["a" + [c] + "b"], [c]), c)| == 2
  {
    SplitAtSeparator("a", "b", c);
    SplitWithoutSeparator("a", c);
    SplitWithoutSeparator("b", c);
  }
}
