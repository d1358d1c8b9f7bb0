/** The Python string operations the modelled code uses. */
module Strings {

  /** ASCII part of `str.lower`. */
  function LowerChar(c: char): char {
    if 'A' <= c <= 'Z' then c + ('a' - 'A') else c
  }

  function Lower(s: string): string {
    seq(|s|, i requires 0 <= i < |s| => LowerChar(s[i]))
  }

  const UPPER := "ABCDEFGHIJKLMNOPQRSTUVWXYZ"
  const LOWER := "abcdefghijklmnopqrstuvwxyz"

  /** Capital letters become small ones, letter by letter, and nothing else changes. */
  lemma LowerLetters(c: char, i: nat)
    requires i < 26
    ensures LowerChar(UPPER[i]) == LOWER[i]
    ensures c < 'A' || 'Z' < c ==> LowerChar(c) == c
  {
    assert UPPER[i] == 'A' + i as char && LOWER[i] == 'a' + i as char;
  }

  /** `str.isspace` for one character. */
  predicate IsSpace(c: char) {
    '\t' <= c <= '\r' || '\U{1c}' <= c <= ' ' || c == '\U{85}' || c == '\U{a0}' || c == '\U{1680}'
    || '\U{2000}' <= c <= '\U{200a}' || c == '\U{2028}' || c == '\U{2029}' || c == '\U{202f}'
    || c == '\U{205f}' || c == '\U{3000}'
  }

  /** A line boundary of `str.splitlines`; a carriage return before a line feed leaves an
      empty line between the two, which the callers drop. */
  predicate IsLineEnd(c: char) {
    '\n' <= c <= '\r' || '\U{1c}' <= c <= '\U{1e}' || c == '\U{85}' || c == '\U{2028}' || c == '\U{2029}'
  }

  /** The ten line ends. */
  lemma LineEndIff(c: char)
    ensures IsLineEnd(c) <==>
              c in ['\n', '\U{b}', '\U{c}', '\r', '\U{1c}', '\U{1d}', '\U{1e}', '\U{85}', '\U{2028}', '\U{2029}']
  {
    assert '\n' <= c <= '\r' ==> c == '\n' || c == '\U{b}' || c == '\U{c}' || c == '\r';
    assert '\U{1c}' <= c <= '\U{1e}' ==> c == '\U{1c}' || c == '\U{1d}' || c == '\U{1e}';
  }

  function StripLeft(s: string): string {
    if s != "" && IsSpace(s[0]) then StripLeft(s[1..]) else s
  }

  function StripRight(s: string): string {
    if s != "" && IsSpace(s[|s| - 1]) then StripRight(s[..|s| - 1]) else s
  }

  function Strip(s: string): string {
    StripRight(StripLeft(s))
  }

  predicate StartsWith(s: string, prefix: string) {
    prefix <= s
  }

  predicate EndsWith(s: string, suffix: string) {
    |suffix| <= |s| && s[|s| - |suffix|..] == suffix
  }

  predicate Contains(s: string, needle: string) {
    exists i :: 0 <= i <= |s| && needle <= s[i..]
  }

  /** Characters up to the first one that satisfies `stop`. */
  function Until(s: string, stop: char -> bool): (n: nat)
    ensures n <= |s|
    ensures forall i :: 0 <= i < n ==> !stop(s[i])
    ensures n < |s| ==> stop(s[n])
  {
    if s == "" || stop(s[0]) then 0 else 1 + Until(s[1..], stop)
  }

  /** `s.split(c)` generalised to a class of separators: always at least one piece. */
  function Split(s: string, sep: char -> bool): (parts: seq<string>)
    ensures parts != []
    decreases |s|
  {
    var n := Until(s, sep);
    if n == |s| then [s] else [s[..n]] + Split(s[n + 1..], sep)
  }

  lemma {:induction false} NoStop(s: string, stop: char -> bool)
    requires forall i :: 0 <= i < |s| ==> !stop(s[i])
    ensures Until(s, stop) == |s|
    decreases |s|
  {
    if s != "" {
      NoStop(s[1..], stop);
    }
  }

  /** The first stop is found behind characters that are none. */
  lemma {:induction false} UntilStop(a: string, c: char, b: string, stop: char -> bool)
    requires stop(c) && forall i :: 0 <= i < |a| ==> !stop(a[i])
    ensures Until(a + [c] + b, stop) == |a|
    decreases |a|
  {
    var s := a + [c] + b;
    if a == "" {
      assert s[0] == c;
    } else {
      assert s[1..] == a[1..] + [c] + b;
      UntilStop(a[1..], c, b, stop);
    }
  }
}
