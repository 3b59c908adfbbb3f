/** Python string operations the migration engine relies on, over ASCII characters. */
module Strings {

  /** Characters matched by Python's `\s` that lie in the ASCII range. */
  predicate IsSpace(c: char) {
    c == ' ' || c == '\t' || c == '\n' || c == '\r' || c == '\U{B}' || c == '\U{C}'
    || ('\U{1C}' <= c <= '\U{1F}')
  }

  /** Characters matched by Python's `\d` that lie in the ASCII range. */
  predicate IsDigit(c: char) { '0' <= c <= '9' }

  predicate IsLowerLetter(c: char) { 'a' <= c <= 'z' }

  /** Characters matched by Python's `\w` that lie in the ASCII range. */
  predicate IsWordChar(c: char) {
    IsLowerLetter(c) || ('A' <= c <= 'Z') || IsDigit(c) || c == '_'
  }

  predicate NoSpace(s: string) { forall i | 0 <= i < |s| :: !IsSpace(s[i]) }

  predicate AllWordChars(s: string) { forall i | 0 <= i < |s| :: IsWordChar(s[i]) }

  /** `sub in s`, and `s.find(sub) >= 0`. */
  predicate Contains(s: string, sub: string) {
    exists i | 0 <= i <= |s| - |sub| :: OccursAt(s, sub, i)
  }

  predicate OccursAt(s: string, sub: string, i: int) {
    0 <= i <= |s| - |sub| && s[i..i + |sub|] == sub
  }

  /** `s.find(sub, from)`: the first index at or after `from` where `sub` occurs, or -1. */
  function FindFrom(s: string, sub: string, from: nat): (r: int)
    requires from <= |s|
    ensures r == -1 || (from <= r && OccursAt(s, sub, r))
    ensures r == -1 ==> forall j | from <= j <= |s| - |sub| :: !OccursAt(s, sub, j)
    ensures r != -1 ==> forall j | from <= j < r :: !OccursAt(s, sub, j)
    decreases |s| - from
  {
    if from + |sub| > |s| then -1
    else if s[from..from + |sub|] == sub then from
    else FindFrom(s, sub, from + 1)
  }

  /** Python's `s.find(sub)`. */
  function Find(s: string, sub: string): (r: int)
    ensures r >= -1
    ensures r == -1 <==> !Contains(s, sub)
    ensures r >= 0 ==> OccursAt(s, sub, r) && forall j | 0 <= j < r :: !OccursAt(s, sub, j)
  {
    var r := FindFrom(s, sub, 0);
    assert r >= 0 ==> s[r..r + |sub|] == sub;
    r
  }

  /** ASCII case folding of Python's `str.lower()`. */
  function LowerChar(c: char): char {
    if 'A' <= c <= 'Z' then (c as int + 32) as char else c
  }

  function Lower(s: string): (r: string)
    ensures |r| == |s| && forall i | 0 <= i < |s| :: r[i] == LowerChar(s[i])
  {
    seq(|s|, i requires 0 <= i < |s| => LowerChar(s[i]))
  }

  function Zeros(n: nat): (r: string)
    ensures |r| == n && forall i | 0 <= i < n :: r[i] == '0'
  {
    if n == 0 then "" else "0" + Zeros(n - 1)
  }

  /** Python's `s.zfill(width)`: zeros are inserted after a leading sign. */
  function ZFill(s: string, width: nat): (r: string)
  {
    if |s| >= width then s
    else if |s| > 0 && (s[0] == '+' || s[0] == '-') then [s[0]] + Zeros(width - |s|) + s[1..]
    else Zeros(width - |s|) + s
  }

  lemma ZFillShape(s: string, width: nat)
    ensures |ZFill(s, width)| == if |s| >= width then |s| else width
  {
  }

  /** An unsigned string is left-padded with zeros: it is a suffix of the result and
      everything before it is '0'. */
  lemma {:induction false} ZFillPadsLeft(s: string, width: nat)
    requires |s| == 0 || (s[0] != '+' && s[0] != '-')
    ensures var r := ZFill(s, width);
      |r| >= |s| && r[|r| - |s|..] == s && forall i | 0 <= i < |r| - |s| :: r[i] == '0'
  {
    var r := ZFill(s, width);
    if |s| < width {
      assert r == Zeros(width - |s|) + s;
      assert r[|r| - |s|..] == s;
    }
  }

  /** ZFill is idempotent, so padding an already padded identifier changes nothing. */
  lemma ZFillIdempotent(s: string, width: nat)
    ensures ZFill(ZFill(s, width), width) == ZFill(s, width)
  {
    ZFillShape(s, width);
  }

  function DigitChar(d: nat): char
    requires d < 10
  {
    "0123456789"[d]
  }

  function NatToString(n: nat): (r: string)
    ensures |r| >= 1 && forall i | 0 <= i < |r| :: IsDigit(r[i])
  {
    if n < 10 then [DigitChar(n)] else NatToString(n / 10) + [DigitChar(n % 10)]
  }

  /** Python's `str(n)` for an integer. */
  function IntToString(n: int): (r: string)
    ensures |r| >= 1
  {
    if n < 0 then "-" + NatToString(-n) else NatToString(n)
  }
}
