/** String helpers with the meaning they have in Rust's standard library. */
module Text {
  import opened Wrappers

  /** Unicode white space. */
  predicate IsSpace(c: char) {
    var n := c as int;
    || 9 <= n <= 13 || n == 32 || n == 0x85 || n == 0xA0 || n == 0x1680 || 0x2000 <= n <= 0x200A
    || n == 0x2028 || n == 0x2029 || n == 0x202F || n == 0x205F || n == 0x3000
  }

  function TrimStart(s: string): (r: string)
    ensures r == [] || !IsSpace(r[0])
  {
    if s != [] && IsSpace(s[0]) then TrimStart(s[1..]) else s
  }

  function TrimEnd(s: string): (r: string)
    ensures r <= s
    ensures r == [] || !IsSpace(r[|r| - 1])
  {
    if s != [] && IsSpace(s[|s| - 1]) then TrimEnd(s[..|s| - 1]) else s
  }

  function Trim(s: string): string {
    TrimEnd(TrimStart(s))
  }

  /** Removes every leading occurrence of one character. */
  function TrimStartChar(s: string, c: char): (r: string)
    ensures r == [] || r[0] != c
  {
    if s != [] && s[0] == c then TrimStartChar(s[1..], c) else s
  }

  function TrimEndChar(s: string, c: char): (r: string)
    ensures r <= s && (r == [] || r[|r| - 1] != c)
  {
    if s != [] && s[|s| - 1] == c then TrimEndChar(s[..|s| - 1], c) else s
  }

  predicate EndsWith(s: string, suffix: string) {
    |suffix| <= |s| && s[|s| - |suffix|..] == suffix
  }

  /** The part before the first occurrence of a character, or everything. */
  function Before(s: string, c: char): (r: string)
    ensures |r| <= |s| && (c in s ==> |r| < |s|)
  {
    if s == [] || s[0] == c then [] else [s[0]] + Before(s[1..], c)
  }

  lemma {:induction false} BeforeFirst(s: string, c: char, t: string)
    requires c !in s
    ensures Before(s + [c] + t, c) == s && Before(s, c) == s
  {
    if s != [] {
      BeforeFirst(s[1..], c, t);
      assert (s + [c] + t)[1..] == s[1..] + [c] + t;
    }
  }

  predicate NoSpace(s: string) {
    forall i :: 0 <= i < |s| ==> !IsSpace(s[i])
  }

  lemma TrimNothing(s: string)
    requires NoSpace(s)
    ensures Trim(s) == s && TrimStart(s) == s && TrimEnd(s) == s
  {
  }

  function AsciiLower(s: string): (r: string)
    ensures |r| == |s|
  {
    seq(|s|, i requires 0 <= i < |s| => if 'A' <= s[i] <= 'Z' then (s[i] as int + 32) as char else s[i])
  }

  lemma TrimTwice(s: string)
    ensures Trim(Trim(s)) == Trim(s)
  {
    var t := Trim(s);
    assert t != [] ==> t[0] == TrimStart(s)[0];
    assert TrimStart(t) == t && TrimEnd(t) == t;
  }

  predicate IsDigit(c: char) {
    '0' <= c <= '9'
  }

  function DigitValue(c: char): nat
    requires IsDigit(c)
  {
    c as int - '0' as int
  }

  predicate AllDigits(s: string) {
    forall i :: 0 <= i < |s| ==> IsDigit(s[i])
  }

  function DecimalValue(s: string): nat
    requires AllDigits(s)
  {
    if s == [] then 0 else 10 * DecimalValue(s[..|s| - 1]) + DigitValue(s[|s| - 1])
  }

  const U16_MAX := 65535

  /** An unsigned 16-bit number: an optional plus sign, then digits, without overflow. */
  function ParseU16(s: string): Option<nat> {
    var digits := if s != [] && s[0] == '+' then s[1..] else s;
    if digits == [] || !AllDigits(digits) || DecimalValue(digits) > U16_MAX then None else Some(DecimalValue(digits))
  }

  function Digit(n: nat): char
    requires n < 10
  {
    "0123456789"[n]
  }

  /** Decimal notation without leading zeros. */
  function Digits(n: nat): (r: string)
    ensures r != []
  {
    if n < 10 then [Digit(n)] else Digits(n / 10) + [Digit(n % 10)]
  }

  // -------------------------------------------------------------------- meaning

  predicate SameLetter(a: char, b: char) {
    a == b || ('A' <= a <= 'Z' && b as int == a as int + 32) || ('A' <= b <= 'Z' && a as int == b as int + 32)
  }

  predicate SameButForCase(a: string, b: string) {
    |a| == |b| && forall i :: 0 <= i < |a| ==> SameLetter(a[i], b[i])
  }

  lemma LowerLetter(s: string, i: nat)
    requires i < |s|
    ensures AsciiLower(s)[i] as int == s[i] as int + if 'A' <= s[i] <= 'Z' then 32 else 0
  {
  }

  /** Lower-casing tells nothing apart but the case of ASCII letters. */
  lemma LowerAgreeIff(a: string, b: string)
    ensures AsciiLower(a) == AsciiLower(b) <==> SameButForCase(a, b)
  {
    if |a| == |b| {
      forall i | 0 <= i < |a|
        ensures AsciiLower(a)[i] == AsciiLower(b)[i] <==> SameLetter(a[i], b[i])
      {
        LowerLetter(a, i);
        LowerLetter(b, i);
        assert AsciiLower(a)[i] == AsciiLower(b)[i] <==> AsciiLower(a)[i] as int == AsciiLower(b)[i] as int;
      }
    }
  }

  predicate AllSpace(s: string) {
    forall i :: 0 <= i < |s| ==> IsSpace(s[i])
  }

  lemma {:induction false} TrimStartSplits(s: string) returns (before: string)
    ensures AllSpace(before) && s == before + TrimStart(s)
  {
    before := [];
    if s != [] && IsSpace(s[0]) {
      before := TrimStartSplits(s[1..]);
      before := [s[0]] + before;
    }
  }

  lemma {:induction false} TrimEndSplits(s: string) returns (after: string)
    ensures AllSpace(after) && s == TrimEnd(s) + after
  {
    after := [];
    if s != [] && IsSpace(s[|s| - 1]) {
      after := TrimEndSplits(s[..|s| - 1]);
      after := after + [s[|s| - 1]];
    }
  }

  /** Trimming removes white space around a text, all of it and nothing else. */
  lemma TrimSplits(s: string) returns (before: string, after: string)
    ensures AllSpace(before) && AllSpace(after) && s == before + Trim(s) + after
    ensures Trim(s) == [] || (!IsSpace(Trim(s)[0]) && !IsSpace(Trim(s)[|Trim(s)| - 1]))
  {
    before := TrimStartSplits(s);
    after := TrimEndSplits(TrimStart(s));
    assert s == before + (Trim(s) + after);
    assert Trim(s) != [] ==> Trim(s)[0] == TrimStart(s)[0];
  }

  /** A number above 65535, a text without digits and one with anything else in it are refused. */
  lemma NumbersRefused(s: string)
    requires s != [] && s[0] != '+'
    ensures ParseU16(s).Some? <==> AllDigits(s) && DecimalValue(s) <= 65535
    ensures ParseU16("+" + s) == ParseU16(s) && ParseU16("+") == None && ParseU16("") == None
  {
    assert ("+" + s)[1..] == s && "+"[1..] == [];
  }

  /** Of the ASCII characters, the tab, the line ends, the two feeds and the blank are white space. */
  lemma AsciiSpaces(c: char)
    requires c as int < 128
    ensures IsSpace(c) <==> c as int in {9, 10, 11, 12, 13, 32}
  {
  }
}
