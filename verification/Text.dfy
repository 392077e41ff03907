/** The `str` methods the repository relies on, for ASCII text. */
module Text {

  /** `str.isspace` on ASCII, which is also the regular expression class `\s`. */
  predicate IsSpace(c: char) {
    '\t' <= c <= '\r' || '\U{1c}' <= c <= ' '
  }

  /** The ASCII characters at which `str.splitlines` breaks. */
  predicate IsLineBreak(c: char) {
    '\n' <= c <= '\r' || '\U{1c}' <= c <= '\U{1e}'
  }

  /** The regular expression class `\w` on ASCII. */
  predicate IsWordChar(c: char) {
    'a' <= c <= 'z' || 'A' <= c <= 'Z' || '0' <= c <= '9' || c == '_'
  }

  predicate IsIdentStart(c: char) {
    'a' <= c <= 'z' || 'A' <= c <= 'Z' || c == '_'
  }

  function LowerChar(c: char): char {
    if 'A' <= c <= 'Z' then (c as int + 32) as char else c
  }

  function Lower(s: string): (r: string)
    ensures |r| == |s|
    ensures forall i :: 0 <= i < |s| ==> r[i] == LowerChar(s[i])
  {
    seq(|s|, i requires 0 <= i < |s| => LowerChar(s[i]))
  }

  function StripLeft(s: string): string {
    if s != [] && IsSpace(s[0]) then StripLeft(s[1..]) else s
  }

  function StripRight(s: string): string {
    if s != [] && IsSpace(s[|s| - 1]) then StripRight(s[..|s| - 1]) else s
  }

  function Strip(s: string): string {
    StripRight(StripLeft(s))
  }

  /** No white space at either end. */
  predicate Trimmed(s: string) {
    s != [] ==> !IsSpace(s[0]) && !IsSpace(s[|s| - 1])
  }

  predicate AllSpace(s: string) {
    forall i :: 0 <= i < |s| ==> IsSpace(s[i])
  }

  lemma {:induction false} StripLeftSplits(s: string) returns (k: nat)
    ensures k <= |s| && AllSpace(s[..k]) && StripLeft(s) == s[k..]
    ensures k < |s| ==> !IsSpace(s[k])
  {
    if s != [] && IsSpace(s[0]) {
      var j := StripLeftSplits(s[1..]);
      k := j + 1;
      assert s[..k] == [s[0]] + s[1..][..j];
    } else {
      k := 0;
    }
  }

  lemma {:induction false} StripRightSplits(s: string) returns (k: nat)
    ensures k <= |s| && AllSpace(s[k..]) && StripRight(s) == s[..k]
    ensures k > 0 ==> !IsSpace(s[k - 1])
  {
    if s != [] && IsSpace(s[|s| - 1]) {
      k := StripRightSplits(s[..|s| - 1]);
      assert s[k..] == s[..|s| - 1][k..] + [s[|s| - 1]];
      assert s[..|s| - 1][..k] == s[..k];
    } else {
      k := |s|;
    }
  }

  /** What stripping does: only white space goes, from the two ends only, and none is left there. */
  lemma StripSplits(s: string) returns (a: nat, b: nat)
    ensures a <= b <= |s| && Strip(s) == s[a..b]
    ensures AllSpace(s[..a]) && AllSpace(s[b..])
    ensures Trimmed(Strip(s))
  {
    a := StripLeftSplits(s);
    var k := StripRightSplits(s[a..]);
    b := a + k;
    assert s[a..][..k] == s[a..b];
    assert s[a..][k..] == s[b..];
  }

  /** Stripping leaves trimmed text alone, so stripping twice is stripping once. */
  lemma StripTrimmed(s: string)
    requires Trimmed(s)
    ensures Strip(s) == s
  {
  }

  lemma StripTwice(s: string)
    ensures Strip(Strip(s)) == Strip(s)
  {
    var _, _ := StripSplits(s);
    StripTrimmed(Strip(s));
  }

  predicate StartsWith(s: string, p: string) {
    |p| <= |s| && s[..|p|] == p
  }

  predicate OccursAt(s: string, p: string, i: int) {
    0 <= i && i + |p| <= |s| && s[i..i + |p|] == p
  }

  /** The first place at or after `from` where `p` occurs, or -1 (`str.find`). */
  function Find(s: string, p: string, from: nat): (r: int)
    requires from <= |s| + 1
    ensures r == -1 <==> forall i :: from <= i <= |s| ==> !OccursAt(s, p, i)
    ensures r != -1 ==> from <= r && OccursAt(s, p, r) && forall i :: from <= i < r ==> !OccursAt(s, p, i)
    decreases |s| + 1 - from
  {
    if from > |s| then -1
    else if OccursAt(s, p, from) then from
    else Find(s, p, from + 1)
  }

  predicate Contains(s: string, p: string) {
    Find(s, p, 0) != -1
  }

  /** `s.replace(p, "")`: drops each leftmost occurrence. */
  function Remove(s: string, p: string): string
    requires p != ""
  {
    if |s| < |p| then s
    else if s[..|p|] == p then Remove(s[|p|..], p)
    else [s[0]] + Remove(s[1..], p)
  }

  const FENCE := "```"
  const SQL_FENCE := "```sql"

  /** The text without Markdown fences and the white space around them. */
  function Unfenced(s: string): string {
    Remove(Remove(Strip(s), SQL_FENCE), FENCE)
  }

  function CountChar(s: string, c: char): nat {
    if s == [] then 0 else (if s[0] == c then 1 else 0) + CountChar(s[1..], c)
  }

  /** `s.rstrip(c)` for a single character. */
  function StripTail(s: string, c: char): string {
    if s != [] && s[|s| - 1] == c then StripTail(s[..|s| - 1], c) else s
  }

  /** `separator.join(parts)`. */
  function Join(separator: string, parts: seq<string>): string {
    if parts == [] then ""
    else if |parts| == 1 then parts[0]
    else parts[0] + separator + Join(separator, parts[1..])
  }

  /** The number of white-space separated words, `len(s.split())`. */
  function WordCount(s: string, inWord: bool := false): nat {
    if s == [] then 0
    else if IsSpace(s[0]) then WordCount(s[1..], false)
    else (if inWord then 0 else 1) + WordCount(s[1..], true)
  }
}
