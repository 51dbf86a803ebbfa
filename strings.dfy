/** String helpers shared by the client and the server model: decimal digits,
    `Number.prototype.toString()` for non-negative integers, `String.prototype.split`
    on one character, `startsWith`, ASCII `toLowerCase` and `includes`. */
module Strings {

  predicate IsDigit(c: char) {
    '0' <= c <= '9'
  }

  predicate AllDigits(s: string) {
    forall i :: 0 <= i < |s| ==> IsDigit(s[i])
  }

  function DigitChar(d: nat): (c: char)
    requires d < 10
    ensures IsDigit(c)
  {
    ('0' as int + d) as char
  }

  function DigitValue(c: char): (d: nat)
    requires IsDigit(c)
    ensures d < 10 && DigitChar(d) == c
  {
    c as int - '0' as int
  }

  /** The decimal rendering of `n`, with no sign and no leading zero. */
  function NatToString(n: nat): (s: string)
    ensures |s| >= 1 && AllDigits(s)
    ensures |s| > 1 ==> s[0] != '0'
    ensures n >= 10 <==> |s| >= 2
  {
    if n < 10 then [DigitChar(n)] else NatToString(n / 10) + [DigitChar(n % 10)]
  }

  /** The value of a string of decimal digits (0 for the empty string). */
  function DigitsValue(s: string): nat
    requires AllDigits(s)
  {
    if s == [] then 0 else DigitsValue(s[..|s| - 1]) * 10 + DigitValue(s[|s| - 1])
  }

  lemma {:induction false} DigitsValueOfNatToString(n: nat)
    ensures DigitsValue(NatToString(n)) == n
  {
    if n >= 10 {
      var s := NatToString(n);
      assert s[..|s| - 1] == NatToString(n / 10);
      DigitsValueOfNatToString(n / 10);
    }
  }

  /** A leading zero does not change the value of a digit string. */
  lemma {:induction false} DigitsValueLeadingZero(s: string)
    requires AllDigits(s)
    ensures AllDigits("0" + s) && DigitsValue("0" + s) == DigitsValue(s)
  {
    if s != [] {
      var t := "0" + s;
      assert t[..|t| - 1] == "0" + s[..|s| - 1];
      DigitsValueLeadingZero(s[..|s| - 1]);
    }
  }

  /** Joins the parts with `sep` between them: the inverse of `Split`. */
  function Join(parts: seq<string>, sep: char): string
    requires |parts| >= 1
  {
    if |parts| == 1 then parts[0] else parts[0] + [sep] + Join(parts[1..], sep)
  }

  /** `s.split(sep)` for a one-character separator: at least one part, no part holds
      `sep`, and the parts joined by `sep` give `s` back. */
  function Split(s: string, sep: char): (parts: seq<string>)
    ensures |parts| >= 1
    ensures forall i :: 0 <= i < |parts| ==> sep !in parts[i]
    ensures Join(parts, sep) == s
  {
    if s == [] then [[]]
    else if s[0] == sep then [[]] + Split(s[1..], sep)
    else
      var rest := Split(s[1..], sep);
      [[s[0]] + rest[0]] + rest[1..]
  }

  lemma {:induction false} SplitNoSeparator(s: string, sep: char)
    requires sep !in s
    ensures Split(s, sep) == [s]
  {
    if s != [] {
      SplitNoSeparator(s[1..], sep);
    }
  }

  /** Splitting at the first separator: the part before it comes first. */
  lemma {:induction false} SplitAtFirst(a: string, sep: char, rest: string)
    requires sep !in a
    ensures Split(a + [sep] + rest, sep) == [a] + Split(rest, sep)
  {
    if a == [] {
      assert a + [sep] + rest == [sep] + rest;
      assert ([sep] + rest)[1..] == rest;
    } else {
      var s := a + [sep] + rest;
      assert s[1..] == a[1..] + [sep] + rest;
      SplitAtFirst(a[1..], sep, rest);
      assert [a[0]] + a[1..] == a;
    }
  }

  /** A character that UTF-16 encodes as a surrogate pair: one above U+FFFF. */
  predicate Astral(c: char) {
    c as int > 0xFFFF
  }

  /** JavaScript's `s.length`: the number of UTF-16 code units, one per character up to
      U+FFFF and two per character above it. */
  function Utf16Length(s: string): (n: nat)
    ensures |s| <= n <= 2 * |s|
    ensures n == 0 <==> s == []
  {
    if s == [] then 0 else Utf16Length(s[..|s| - 1]) + (if Astral(s[|s| - 1]) then 2 else 1)
  }

  /** Without characters above U+FFFF the code-unit count is the character count. */
  lemma {:induction false} Utf16LengthBasic(s: string)
    requires forall i :: 0 <= i < |s| ==> !Astral(s[i])
    ensures Utf16Length(s) == |s|
  {
    if s != [] {
      Utf16LengthBasic(s[..|s| - 1]);
    }
  }

  /** Each character above U+FFFF counts twice: one emoji already has length 2. */
  lemma {:induction false} Utf16LengthAllAstral(s: string)
    requires forall i :: 0 <= i < |s| ==> Astral(s[i])
    ensures Utf16Length(s) == 2 * |s|
  {
    if s != [] {
      Utf16LengthAllAstral(s[..|s| - 1]);
    }
  }

  predicate StartsWith(s: string, prefix: string) {
    |prefix| <= |s| && s[..|prefix|] == prefix
  }

  /** ASCII lower-casing of one character. */
  function LowerChar(c: char): char {
    if 'A' <= c <= 'Z' then (c as int + 32) as char else c
  }

  function ToLower(s: string): (r: string)
    ensures |r| == |s|
    ensures forall i :: 0 <= i < |s| ==> r[i] == LowerChar(s[i])
  {
    seq(|s|, i requires 0 <= i < |s| => LowerChar(s[i]))
  }

  /** Lower-casing twice is lower-casing once. */
  lemma ToLowerIdempotent(s: string)
    ensures ToLower(ToLower(s)) == ToLower(s)
  {
  }

  /** `s.includes(q)`: `q` occurs in `s` at some position. */
  predicate Contains(s: string, q: string)
    decreases |s|
  {
    StartsWith(s, q) || (|s| > 0 && Contains(s[1..], q))
  }

  /** `q` occurs in `s` starting at position `k`. */
  predicate OccursAt(s: string, q: string, k: int) {
    0 <= k && k + |q| <= |s| && s[k..k + |q|] == q
  }

  lemma {:induction false} ContainsAt(s: string, q: string, k: nat)
    requires OccursAt(s, q, k)
    ensures Contains(s, q)
  {
    if k > 0 {
      assert s[1..][k - 1..k - 1 + |q|] == q;
      assert OccursAt(s[1..], q, k - 1);
      ContainsAt(s[1..], q, k - 1);
    }
  }

  lemma {:induction false} ContainsWitness(s: string, q: string) returns (k: nat)
    requires Contains(s, q)
    ensures OccursAt(s, q, k)
    decreases |s|
  {
    if StartsWith(s, q) {
      k := 0;
    } else {
      var j := ContainsWitness(s[1..], q);
      assert s[j + 1..j + 1 + |q|] == s[1..][j..j + |q|];
      k := j + 1;
    }
  }

  /** `includes` holds exactly when `q` occurs at some position of `s`. */
  lemma ContainsIff(s: string, q: string)
    ensures Contains(s, q) <==> exists k :: OccursAt(s, q, k)
  {
    if Contains(s, q) {
      var k := ContainsWitness(s, q);
    }
    if exists k :: OccursAt(s, q, k) {
      var k :| OccursAt(s, q, k);
      ContainsAt(s, q, k);
    }
  }
}
