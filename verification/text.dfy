/**
 * The JavaScript string operations the player and the stores rely on, written out
 * over `seq<char>`: `trim`, ASCII `toLowerCase`, `startsWith`, `includes`,
 * `split(/\r?\n/)`, `join("\n")`, decimal `toString` and `parseInt`.
 */
module Text {

  /** The characters `String.prototype.trim` removes: ECMAScript WhiteSpace and LineTerminator. */
  predicate IsJsWhitespace(c: char) {
    || c == '\t' || c == '\n' || c == '\U{B}' || c == '\U{C}' || c == '\r' || c == ' '
    || c == '\U{A0}' || c == '\U{1680}' || ('\U{2000}' <= c <= '\U{200A}')
    || c == '\U{2028}' || c == '\U{2029}' || c == '\U{202F}' || c == '\U{205F}'
    || c == '\U{3000}' || c == '\U{FEFF}'
  }

  /** A line that `trim` turns into the empty string. */
  predicate IsBlank(s: string) {
    forall i :: 0 <= i < |s| ==> IsJsWhitespace(s[i])
  }

  function TrimStart(s: string): (r: string)
    ensures |r| <= |s| && r == s[|s| - |r|..]
    ensures r == [] || !IsJsWhitespace(r[0])
    ensures IsBlank(s[..|s| - |r|])
  {
    if s != [] && IsJsWhitespace(s[0]) then
      var r := TrimStart(s[1..]);
      assert s[1..][|s| - 1 - |r|..] == s[|s| - |r|..];
      var blank, rest := s[..|s| - |r|], s[1..][..|s| - 1 - |r|];
      assert forall i :: 0 < i < |blank| ==> blank[i] == rest[i - 1];
      r
    else s
  }

  function TrimEnd(s: string): (r: string)
    ensures |r| <= |s| && r == s[..|r|]
    ensures r == [] || !IsJsWhitespace(r[|r| - 1])
    ensures IsBlank(s[|r|..])
  {
    if s != [] && IsJsWhitespace(s[|s| - 1]) then TrimEnd(s[..|s| - 1]) else s
  }

  /** `s.trim()`: `s` without its leading and trailing whitespace. */
  function Trim(s: string): (r: string)
    ensures |r| <= |s|
    ensures r == [] || (!IsJsWhitespace(r[0]) && !IsJsWhitespace(r[|r| - 1]))
  {
    TrimEnd(TrimStart(s))
  }

  /** A string with no whitespace at either end trims to itself. */
  lemma TrimOfClean(s: string)
    requires s != [] && !IsJsWhitespace(s[0]) && !IsJsWhitespace(s[|s| - 1])
    ensures Trim(s) == s
  {
    assert TrimStart(s) == s;
  }

  /** A line trims to nothing exactly when every character in it is whitespace. */
  lemma TrimIsEmptyIffBlank(s: string)
    ensures Trim(s) == [] <==> IsBlank(s)
  {
    var t := TrimStart(s);
    var r := TrimEnd(t);
    assert s == s[..|s| - |t|] + t;
    if r == [] {
      assert IsBlank(t[0..]);
    }
    assert t != [] ==> t[0] == s[|s| - |t|];
  }

  /** The template `${a}_${b}` that both the history ids and the progress keys are built with. */
  function UnderscoreJoin(a: string, b: string): (k: string)
    ensures |k| == |a| + 1 + |b|
    ensures k[..|a|] == a && k[|a|] == '_' && k[|a| + 1..] == b
  {
    a + "_" + b
  }

  /** Two pairs give the same key only if they are equal, as long as no first part holds a `_`. */
  lemma UnderscoreJoinInjective(a1: string, b1: string, a2: string, b2: string)
    requires '_' !in a1 && '_' !in a2
    ensures UnderscoreJoin(a1, b1) == UnderscoreJoin(a2, b2) ==> a1 == a2 && b1 == b2
  {
  }

  /** With a `_` inside the first part, two different pairs do give the same key. */
  lemma UnderscoreJoinCollides(a: string, b: string, c: string)
    ensures UnderscoreJoin(a + "_" + b, c) == UnderscoreJoin(a, b + "_" + c)
  {
  }

  /** `c.toLowerCase()` for ASCII letters; every other character is left alone. */
  function LowerAscii(c: char): char {
    if 'A' <= c <= 'Z' then (c as int + 32) as char else c
  }

  function ToLowerAscii(s: string): (r: string)
    ensures |r| == |s|
    ensures forall i :: 0 <= i < |s| ==> r[i] == LowerAscii(s[i])
  {
    seq(|s|, i requires 0 <= i < |s| => LowerAscii(s[i]))
  }

  /** Upper-cases ASCII letters only: the canonical form a non-Unicode `/i` regex compares. */
  function UpperAscii(c: char): char {
    if 'a' <= c <= 'z' then (c as int - 32) as char else c
  }

  predicate StartsWith(s: string, prefix: string) {
    |prefix| <= |s| && s[..|prefix|] == prefix
  }

  /** `prefix` matches the start of `s` under a case-insensitive, non-Unicode regex. */
  predicate StartsWithIgnoringCase(s: string, prefix: string) {
    |prefix| <= |s| && forall i :: 0 <= i < |prefix| ==> UpperAscii(s[i]) == UpperAscii(prefix[i])
  }

  /** `s.includes(part)`. */
  predicate Contains(s: string, part: string)
    decreases |s|
  {
    StartsWith(s, part) || (s != [] && Contains(s[1..], part))
  }

  predicate ContainsIgnoringCase(s: string, part: string)
    decreases |s|
  {
    StartsWithIgnoringCase(s, part) || (s != [] && ContainsIgnoringCase(s[1..], part))
  }

  // ---- split(/\r?\n/) and join("\n") ----

  /** Index of the first line feed in `s`, or `|s|` when there is none. */
  function NewlineIndex(s: string): (i: nat)
    ensures i <= |s|
    ensures i < |s| ==> s[i] == '\n'
    ensures forall k :: 0 <= k < i ==> s[k] != '\n'
  {
    if s == [] || s[0] == '\n' then 0 else 1 + NewlineIndex(s[1..])
  }

  lemma {:induction false} NewlineIndexAfter(a: string, rest: string)
    requires '\n' !in a
    ensures NewlineIndex(a + "\n" + rest) == |a|
  {
    var s := a + "\n" + rest;
    assert s[|a|] == '\n';
    assert forall k :: 0 <= k < |a| ==> s[k] == a[k] && a[k] in a;
  }

  /**
   * `s.split(/\r?\n/)`: the leftmost separator is the first line feed together with
   * a carriage return immediately before it, if there is one.
   */
  function SplitLines(s: string): (lines: seq<string>)
    ensures |lines| >= 1
    ensures forall l :: l in lines ==> '\n' !in l
    decreases |s|
  {
    var i := NewlineIndex(s);
    if i == |s| then [s]
    else
      var end := if i > 0 && s[i - 1] == '\r' then i - 1 else i;
      assert forall k :: 0 <= k < end ==> s[..end][k] != '\n';
      [s[..end]] + SplitLines(s[i + 1..])
  }

  /** `lines.join("\n")`. */
  function Join(lines: seq<string>): string {
    if |lines| == 0 then ""
    else if |lines| == 1 then lines[0]
    else lines[0] + "\n" + Join(lines[1..])
  }

  predicate EndsWithCr(s: string) {
    |s| > 0 && s[|s| - 1] == '\r'
  }

  /** Joining lines that hold no line feed and (but for the last) end in no carriage return, then splitting, gives the lines back. */
  lemma {:induction false} SplitJoin(lines: seq<string>)
    requires lines != []
    requires forall l :: l in lines ==> '\n' !in l
    requires forall k :: 0 <= k < |lines| - 1 ==> !EndsWithCr(lines[k])
    ensures SplitLines(Join(lines)) == lines
  {
    var a := lines[0];
    if |lines| == 1 {
      assert forall k :: 0 <= k < |a| ==> a[k] in a;
    } else {
      var rest := Join(lines[1..]);
      var s := a + "\n" + rest;
      assert lines[0] in lines;
      NewlineIndexAfter(a, rest);
      assert s[..|a|] == a;
      assert s[|a| + 1..] == rest;
      SplitJoin(lines[1..]);
      assert lines == [a] + lines[1..];
    }
  }

  // ---- decimal numerals: Number.prototype.toString() and parseInt(_, 10) ----

  predicate IsDigit(c: char) {
    '0' <= c <= '9'
  }

  function DigitChar(d: nat): (c: char)
    requires d < 10
    ensures IsDigit(c)
  {
    ('0' as int + d) as char
  }

  /** The value of a run of decimal digits, most significant first. */
  function DigitsValue(ds: string): nat
    requires forall c :: c in ds ==> IsDigit(c)
  {
    if ds == [] then 0
    else
      assert ds[|ds| - 1] in ds && IsDigit(ds[|ds| - 1]);
      var d := ds[|ds| - 1] as int - '0' as int;
      assert 0 <= d;
      DigitsValue(ds[..|ds| - 1]) * 10 + d
  }

  /** The longest prefix of `s` made of decimal digits (what `\d+` consumes). */
  function LeadingDigits(s: string): (ds: string)
    ensures |ds| <= |s| && ds == s[..|ds|]
    ensures forall c :: c in ds ==> IsDigit(c)
    ensures |ds| == |s| || !IsDigit(s[|ds|])
  {
    if s != [] && IsDigit(s[0]) then [s[0]] + LeadingDigits(s[1..]) else ""
  }

  /** `n.toString()` for a natural number: its decimal numeral without leading zeros. */
  function DecimalString(n: nat): (s: string)
    ensures |s| >= 1
    ensures forall c :: c in s ==> IsDigit(c)
    ensures |s| > 1 ==> s[0] != '0'
  {
    if n < 10 then [DigitChar(n)] else DecimalString(n / 10) + [DigitChar(n % 10)]
  }

  /** Reading back a numeral that `DecimalString` wrote gives the number. */
  lemma {:induction false} DecimalRoundTrip(n: nat)
    ensures DigitsValue(DecimalString(n)) == n
  {
    if n >= 10 {
      var s := DecimalString(n);
      assert s[..|s| - 1] == DecimalString(n / 10);
      DecimalRoundTrip(n / 10);
    }
  }
}
