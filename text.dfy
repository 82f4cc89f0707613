/**
 * The JavaScript string operations the services rely on: String.prototype.includes,
 * Array.prototype.join, trim, an ASCII toLowerCase, parseInt without a radix,
 * and the decimal rendering of an integer inside a template literal.
 */
module Text {
  import opened Wrappers

  predicate IsDigit(c: char) { '0' <= c <= '9' }

  predicate IsHexDigit(c: char) { IsDigit(c) || 'a' <= c <= 'f' || 'A' <= c <= 'F' }

  /** Digit of `c` in base `radix` (10 or 16), if `c` is one. */
  predicate IsRadixDigit(c: char, radix: nat) {
    if radix == 16 then IsHexDigit(c) else IsDigit(c)
  }

  function DigitValue(c: char): (v: nat)
    requires IsHexDigit(c)
    ensures v < 16 && (IsDigit(c) ==> v < 10)
  {
    if IsDigit(c) then c as int - '0' as int
    else if 'a' <= c <= 'f' then c as int - 'a' as int + 10
    else c as int - 'A' as int + 10
  }

  function DigitChar(d: nat): (c: char)
    requires d < 10
    ensures IsDigit(c) && DigitValue(c) == d
  {
    ('0' as int + d) as char
  }

  // ---------------------------------------------------------------- includes

  ghost predicate OccursAt(s: string, sub: string, i: nat) {
    i + |sub| <= |s| && s[i..i + |sub|] == sub
  }

  /** `s.includes(sub)`: `sub` occurs somewhere in `s` (the empty string occurs everywhere). */
  function Contains(s: string, sub: string): (r: bool)
    ensures r <==> exists i: nat :: OccursAt(s, sub, i)
    decreases |s|
  {
    if |sub| > |s| then false
    else if s[..|sub|] == sub then assert OccursAt(s, sub, 0); true
    else
      var rest := Contains(s[1..], sub);
      ShiftOccurrence(s, sub);
      rest
  }

  lemma ShiftOccurrence(s: string, sub: string)
    requires |sub| <= |s| && s[..|sub|] != sub
    ensures (exists i: nat :: OccursAt(s[1..], sub, i)) <==> (exists i: nat :: OccursAt(s, sub, i))
  {
    if i: nat :| OccursAt(s[1..], sub, i) {
      assert s[1..][i..i + |sub|] == s[i + 1..i + 1 + |sub|];
      assert OccursAt(s, sub, i + 1);
    }
    if i: nat :| OccursAt(s, sub, i) {
      assert i != 0;
      assert s[1..][i - 1..i - 1 + |sub|] == s[i..i + |sub|];
      assert OccursAt(s[1..], sub, i - 1);
    }
  }

  /** A string that contains `a + b` contains `a`. */
  lemma {:induction false} ContainsPrefixOf(s: string, a: string, b: string)
    requires Contains(s, a + b)
    ensures Contains(s, a)
  {
    var i: nat :| OccursAt(s, a + b, i);
    assert s[i..i + |a|] == (a + b)[..|a|] == a;
    assert OccursAt(s, a, i);
  }

  /** `part` occurs in `pre + part + post`. */
  lemma ContainsMiddle(pre: string, part: string, post: string)
    ensures Contains(pre + part + post, part)
  {
    var s := pre + part + post;
    assert s[|pre|..|pre| + |part|] == part;
    assert OccursAt(s, part, |pre|);
  }

  // -------------------------------------------------------------------- join

  /** The strings one after another. */
  function Concat(xs: seq<string>): string
    decreases |xs|
  {
    if |xs| == 0 then "" else xs[0] + Concat(xs[1..])
  }

  lemma {:induction false} ConcatSnoc(xs: seq<string>, x: string)
    ensures Concat(xs + [x]) == Concat(xs) + x
    decreases |xs|
  {
    if |xs| == 0 {
      assert xs + [x] == [x];
    } else {
      assert (xs + [x])[1..] == xs[1..] + [x];
      ConcatSnoc(xs[1..], x);
    }
  }

  /** `xs.join(sep)`. */
  function Join(xs: seq<string>, sep: string): string
    decreases |xs|
  {
    if |xs| == 0 then "" else if |xs| == 1 then xs[0] else xs[0] + sep + Join(xs[1..], sep)
  }

  /** Joining one more element appends the separator and the element. */
  lemma {:induction false} JoinSnoc(xs: seq<string>, x: string, sep: string)
    requires |xs| > 0
    ensures Join(xs + [x], sep) == Join(xs, sep) + sep + x
    decreases |xs|
  {
    if |xs| == 1 {
      assert xs + [x] == [xs[0], x];
      assert (xs + [x])[1..] == [x];
    } else {
      assert (xs + [x])[1..] == xs[1..] + [x];
      JoinSnoc(xs[1..], x, sep);
    }
  }

  /** Each element is found in the joined string. */
  lemma {:induction false} JoinContainsElement(xs: seq<string>, sep: string, k: nat)
    requires k < |xs|
    ensures Contains(Join(xs, sep), xs[k])
    decreases |xs|
  {
    if |xs| == 1 {
      ContainsMiddle("", xs[0], "");
      assert "" + xs[0] + "" == xs[0];
    } else if k == 0 {
      ContainsMiddle("", xs[0], sep + Join(xs[1..], sep));
      assert "" + xs[0] + (sep + Join(xs[1..], sep)) == Join(xs, sep);
    } else {
      JoinContainsElement(xs[1..], sep, k - 1);
      var rest := Join(xs[1..], sep);
      assert xs[1..][k - 1] == xs[k];
      ContainsWithin(xs[0] + sep, rest, "", xs[k]);
      assert xs[0] + sep + rest + "" == Join(xs, sep);
    }
  }

  /** A template literal: the fixed parts with the substituted values between them. */
  function Template(parts: seq<string>, values: seq<string>): string
    requires |parts| == |values| + 1
    decreases |values|
  {
    if |values| == 0 then parts[0] else parts[0] + values[0] + Template(parts[1..], values[1..])
  }

  // ------------------------------------------------------ trim and lowercase

  /** ECMAScript WhiteSpace and LineTerminator code points, which `trim` strips. */
  predicate IsJsWhitespace(c: char) {
    c == ' ' || c == '\t' || c == '\n' || c == '\r' || c == '\U{000B}' || c == '\U{000C}'
    || c == '\U{00A0}' || c == '\U{1680}' || ('\U{2000}' <= c <= '\U{200A}')
    || c == '\U{2028}' || c == '\U{2029}' || c == '\U{202F}' || c == '\U{205F}'
    || c == '\U{3000}' || c == '\U{FEFF}'
  }

  /** Where the whitespace that starts at offset `i` of `s` ends. */
  function WhitespaceEnd(s: string, i: nat): (k: nat)
    requires i <= |s|
    ensures i <= k <= |s|
    ensures forall j :: i <= j < k ==> IsJsWhitespace(s[j])
    ensures k < |s| ==> !IsJsWhitespace(s[k])
    decreases |s| - i
  {
    if i < |s| && IsJsWhitespace(s[i]) then WhitespaceEnd(s, i + 1) else i
  }

  /** Where the whitespace that ends at offset `hi` of `s`, but not before `lo`, starts. */
  function WhitespaceStart(s: string, lo: nat, hi: nat): (k: nat)
    requires lo <= hi <= |s|
    ensures lo <= k <= hi
    ensures forall j :: k <= j < hi ==> IsJsWhitespace(s[j])
    ensures lo < k ==> !IsJsWhitespace(s[k - 1])
    decreases hi - lo
  {
    if lo < hi && IsJsWhitespace(s[hi - 1]) then WhitespaceStart(s, lo, hi - 1) else hi
  }

  /** `s.trimStart()`: the suffix of `s` after its leading whitespace. */
  function TrimStart(s: string): (r: string)
    ensures |r| <= |s| && r == s[|s| - |r|..]
    ensures forall i :: 0 <= i < |s| - |r| ==> IsJsWhitespace(s[i])
    ensures |r| > 0 ==> !IsJsWhitespace(r[0])
    decreases |s|
  {
    if |s| > 0 && IsJsWhitespace(s[0]) then TrimStart(s[1..]) else s
  }

  /**
   * `r` is `s` trimmed: the part of `s` from offset `k` on, everything before and
   * after it whitespace, and neither end of it whitespace.
   */
  predicate TrimmedAt(s: string, k: nat, r: string) {
    && k + |r| <= |s| && (forall j :: 0 <= j < |r| ==> r[j] == s[k + j])
    && (forall i :: 0 <= i < k ==> IsJsWhitespace(s[i]))
    && (forall i :: k + |r| <= i < |s| ==> IsJsWhitespace(s[i]))
    && (|r| > 0 ==> !IsJsWhitespace(r[0]) && !IsJsWhitespace(r[|r| - 1]))
  }

  /** `s.trim()`: what is left once the leading and the trailing whitespace are stripped. */
  function Trim(s: string): (r: string)
    ensures TrimmedAt(s, WhitespaceEnd(s, 0), r)
  {
    s[WhitespaceEnd(s, 0)..WhitespaceStart(s, WhitespaceEnd(s, 0), |s|)]
  }

  /** Trimming a string without upper-case ASCII letters leaves none. */
  lemma TrimmedKeepsLower(s: string, k: nat, r: string)
    requires TrimmedAt(s, k, r)
    requires forall i :: 0 <= i < |s| ==> !('A' <= s[i] <= 'Z')
    ensures forall j :: 0 <= j < |r| ==> !('A' <= r[j] <= 'Z')
  {
    forall j | 0 <= j < |r| ensures !('A' <= r[j] <= 'Z') {
      assert r[j] == s[k + j];
    }
  }

  function LowerChar(c: char): char {
    if 'A' <= c <= 'Z' then (c as int - 'A' as int + 'a' as int) as char else c
  }

  /** `s.toLowerCase()` on the ASCII letters. */
  function ToLower(s: string): (r: string)
    ensures |r| == |s|
    ensures forall i :: 0 <= i < |s| ==> r[i] == LowerChar(s[i])
    ensures forall i :: 0 <= i < |r| ==> !('A' <= r[i] <= 'Z')
  {
    seq(|s|, i requires 0 <= i < |s| => LowerChar(s[i]))
  }

  /** Appending in two steps is appending the two parts at once. */
  lemma AppendTwice(s: string, x: string, y: string)
    ensures s + x + y == s + (x + y)
  {
  }

  /** Every text found in `s` is found in `pre + s + post`. */
  lemma ContainsAllWithin(pre: string, s: string, post: string, subs: seq<string>)
    requires forall k :: 0 <= k < |subs| ==> Contains(s, subs[k])
    ensures forall k :: 0 <= k < |subs| ==> Contains(pre + s + post, subs[k])
  {
    forall k | 0 <= k < |subs| ensures Contains(pre + s + post, subs[k]) {
      ContainsWithin(pre, s, post, subs[k]);
    }
  }

  /** Text found in `s` is found in `pre + s + post`. */
  lemma {:induction false} ContainsWithin(pre: string, s: string, post: string, sub: string)
    requires Contains(s, sub)
    ensures Contains(pre + s + post, sub)
  {
    var i: nat :| OccursAt(s, sub, i);
    var t := pre + s + post;
    assert t[|pre| + i..|pre| + i + |sub|] == s[i..i + |sub|];
    assert OccursAt(t, sub, |pre| + i);
  }

  // ------------------------------------------------------ numbers in strings

  /** Decimal digits of a natural number, without leading zeros. */
  function NatToString(n: nat): (r: string)
    ensures |r| > 0 && forall i :: 0 <= i < |r| ==> IsDigit(r[i])
    ensures |r| > 1 ==> r[0] != '0'
    decreases n
  {
    if n < 10 then [DigitChar(n)] else NatToString(n / 10) + [DigitChar(n % 10)]
  }

  /** `${i}` for an integer `i`. */
  function IntToString(i: int): string {
    if i < 0 then "-" + NatToString(-i) else NatToString(i)
  }

  /** Length of the run of base-`radix` digits that starts `s`. */
  function DigitRun(s: string, radix: nat): (k: nat)
    ensures k <= |s|
    ensures forall i :: 0 <= i < k ==> IsRadixDigit(s[i], radix)
    ensures k < |s| ==> !IsRadixDigit(s[k], radix)
    decreases |s|
  {
    if |s| > 0 && IsRadixDigit(s[0], radix) then 1 + DigitRun(s[1..], radix) else 0
  }

  /** Value of a string of base-`radix` digits, most significant first. */
  function DigitsValue(d: string, radix: nat): nat
    requires radix == 10 || radix == 16
    requires forall i :: 0 <= i < |d| ==> IsRadixDigit(d[i], radix)
    decreases |d|
  {
    if |d| == 0 then 0
    else
      assert IsRadixDigit(d[|d| - 1], radix);
      DigitsValue(d[..|d| - 1], radix) * radix + DigitValue(d[|d| - 1])
  }

  /** The longest run of base-`radix` digits at the start of `v`, as a number; None if there is none. */
  function ParseDigits(v: string, radix: nat): Option<nat>
    requires radix == 10 || radix == 16
  {
    var k := DigitRun(v, radix);
    if k == 0 then None else Some(DigitsValue(v[..k], radix))
  }

  /** An unsigned number: hexadecimal after a "0x" or "0X" prefix, decimal otherwise. */
  function ParseMagnitude(u: string): Option<nat> {
    if |u| >= 2 && u[0] == '0' && (u[1] == 'x' || u[1] == 'X') then ParseDigits(u[2..], 16)
    else ParseDigits(u, 10)
  }

  /**
   * `parseInt(s)` with no radix: skip leading whitespace, read an optional sign,
   * switch to base 16 after a "0x"/"0X" prefix, then read the longest run of digits.
   * None stands for NaN (no digit at all); "-0" gives Some(0).
   */
  function ParseInt(s: string): Option<int> {
    var t := TrimStart(s);
    if |t| > 0 && t[0] == '-' then
      match ParseMagnitude(t[1..])
      case Some(n) => Some(-(n as int))
      case None => None
    else if |t| > 0 && t[0] == '+' then
      match ParseMagnitude(t[1..])
      case Some(n) => Some(n)
      case None => None
    else
      match ParseMagnitude(t)
      case Some(n) => Some(n)
      case None => None
  }

  lemma {:induction false} DigitsValueOfNat(n: nat)
    ensures DigitsValue(NatToString(n), 10) == n
    decreases n
  {
    var r := NatToString(n);
    if n >= 10 {
      DigitsValueOfNat(n / 10);
      assert r[..|r| - 1] == NatToString(n / 10);
    }
  }

  /** The digit run is determined by where the first non-digit stands. */
  lemma {:induction false} DigitRunIs(s: string, radix: nat, m: nat)
    requires m <= |s|
    requires forall i :: 0 <= i < m ==> IsRadixDigit(s[i], radix)
    requires m < |s| ==> !IsRadixDigit(s[m], radix)
    ensures DigitRun(s, radix) == m
    decreases m
  {
    if m > 0 {
      DigitRunIs(s[1..], radix, m - 1);
    }
  }

  lemma ParseDigitsOfRendered(n: nat, rest: string)
    requires |rest| > 0 ==> !IsDigit(rest[0])
    ensures ParseDigits(NatToString(n) + rest, 10) == Some(n)
  {
    var r := NatToString(n);
    var s := r + rest;
    assert forall i :: 0 <= i < |r| ==> s[i] == r[i];
    assert |rest| > 0 ==> s[|r|] == rest[0];
    DigitRunIs(s, 10, |r|);
    assert s[..|r|] == r;
    DigitsValueOfNat(n);
  }

  lemma TrimStartNoop(s: string)
    requires |s| > 0 && !IsJsWhitespace(s[0])
    ensures TrimStart(s) == s
  {
  }

  /** Without a leading sign or whitespace, parseInt reads the magnitude alone. */
  lemma ParseIntUnsigned(s: string)
    requires |s| > 0 && IsDigit(s[0])
    ensures ParseInt(s) == match ParseMagnitude(s) case Some(n) => Some(n) case None => None
  {
    TrimStartNoop(s);
  }

  /**
   * parseInt reads back the decimal rendering of a number followed by text that
   * does not continue it: parseInt("21 days") == 21. A "0" directly followed by
   * "x" or "X" is read as a hexadecimal prefix instead.
   */
  lemma ParseIntOfRendered(n: nat, rest: string)
    requires |rest| > 0 ==> !IsDigit(rest[0])
    requires n == 0 ==> |rest| == 0 || (rest[0] != 'x' && rest[0] != 'X')
    ensures ParseInt(NatToString(n) + rest) == Some(n)
  {
    var r := NatToString(n);
    var s := r + rest;
    assert s[0] == r[0];
    if |r| == 1 && |rest| > 0 {
      assert s[1] == rest[0];
    } else if |r| > 1 {
      assert s[0] != '0';
    }
    assert ParseMagnitude(s) == ParseDigits(s, 10);
    ParseDigitsOfRendered(n, rest);
    ParseIntUnsigned(s);
  }

  /** parseInt reads back the rendering of a negative number. */
  lemma ParseIntOfNegative(n: nat)
    requires n > 0
    ensures ParseInt("-" + NatToString(n)) == Some(-(n as int))
  {
    var r := NatToString(n);
    var s := "-" + r;
    assert s[1..] == r;
    TrimStartNoop(s);
    assert r + "" == r;
    ParseIntOfRendered(n, "");
    TrimStartNoop(r);
    ParseIntUnsigned(r);
  }

  /** parseInt reads back `${i}` for every integer i. */
  lemma ParseIntOfIntToString(i: int)
    ensures ParseInt(IntToString(i)) == Some(i)
  {
    if i >= 0 {
      assert NatToString(i) + "" == IntToString(i);
      ParseIntOfRendered(i, "");
    } else {
      ParseIntOfNegative(-i);
      assert IntToString(i) == "-" + NatToString(-i);
    }
  }
}
