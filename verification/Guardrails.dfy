/** The SQL guardrail (guardrails.py): comments are blanked out, then blocked words are searched for. */
module Guardrails {
  import opened Text

  /** The first line break or the end of the text, at or after `from`: where `.*?$` stops. */
  function LineEnd(s: string, from: nat): (r: nat)
    requires from <= |s|
    ensures from <= r <= |s|
    decreases |s| - from
  {
    if from == |s| || s[from] == '\n' then from else LineEnd(s, from + 1)
  }

  predicate DashesAt(s: string, i: nat) {
    i + 2 <= |s| && s[i] == '-' && s[i + 1] == '-'
  }

  predicate SlashStarAt(s: string, i: nat) {
    i + 2 <= |s| && s[i] == '/' && s[i + 1] == '*'
  }

  predicate StarSlashAt(s: string, i: nat) {
    i + 2 <= |s| && s[i] == '*' && s[i + 1] == '/'
  }

  /** The first `*` + `/` at or after `from`, or the length of the text. */
  function BlockEnd(s: string, from: nat): (r: nat)
    requires from <= |s|
    ensures from <= r <= |s|
    ensures forall i :: from <= i < r ==> !StarSlashAt(s, i)
    ensures r < |s| ==> StarSlashAt(s, r)
    decreases |s| - from
  {
    if from == |s| || StarSlashAt(s, from) then from else BlockEnd(s, from + 1)
  }

  /** Where the comment that begins at the start of the text ends, or 0 if none begins there. */
  function CommentLength(s: string): (n: nat)
    ensures n <= |s|
    ensures n > 0 ==> n >= 2
  {
    if DashesAt(s, 0) then LineEnd(s, 2)
    else if SlashStarAt(s, 0) && BlockEnd(s, 2) < |s| then BlockEnd(s, 2) + 2
    else 0
  }

  /** `re.sub`: each leftmost comment becomes one space. */
  function StripComments(s: string): string {
    if s == [] then []
    else if CommentLength(s) > 0 then [' '] + StripComments(s[CommentLength(s)..])
    else [s[0]] + StripComments(s[1..])
  }

  /** A comment - a `--`, or a block with both ends - begins somewhere in the text. */
  ghost predicate HasComment(s: string) {
    exists i :: 0 <= i <= |s| && CommentLength(s[i..]) > 0
  }

  // ---------------------------------------------------------------- words

  const BLOCKED: seq<string> :=
    ["drop", "delete", "update", "insert", "alter", "truncate", "create", "replace", "attach", "detach"]

  /** `\b` + word + `\b` matches at `i`. */
  predicate WordAt(s: string, w: string, i: int) {
    && OccursAt(s, w, i)
    && (i > 0 ==> !IsWordChar(s[i - 1]))
    && (i + |w| < |s| ==> !IsWordChar(s[i + |w|]))
  }

  predicate HasWord(s: string, w: string) {
    exists i :: 0 <= i < |s| && WordAt(s, w, i)
  }

  predicate IsSafeSql(sql: string) {
    var normalized := StripComments(Lower(sql));
    forall k :: 0 <= k < |BLOCKED| ==> !HasWord(normalized, BLOCKED[k])
  }

  /** The number of word characters the text begins with. */
  function WordLength(s: string): (n: nat)
    ensures n <= |s|
    ensures forall i :: 0 <= i < n ==> IsWordChar(s[i])
    ensures n < |s| ==> !IsWordChar(s[n])
  {
    if s != [] && IsWordChar(s[0]) then 1 + WordLength(s[1..]) else 0
  }

  /** The maximal words of a text, in order. */
  function Words(s: string): seq<string> {
    if s == [] then []
    else if WordLength(s) > 0 then [s[..WordLength(s)]] + Words(s[WordLength(s)..])
    else Words(s[1..])
  }

  // ---------------------------------------------------------------- comments

  lemma CommentFreeTail(s: string)
    requires s != [] && !HasComment(s)
    ensures !HasComment(s[1..]) && CommentLength(s) == 0
  {
    assert s[0..] == s;
    forall i | 0 <= i <= |s[1..]| ensures CommentLength(s[1..][i..]) == 0 {
      assert s[1..][i..] == s[i + 1..];
    }
  }

  /** Text without comments is left alone. */
  lemma {:induction false} NoCommentKept(s: string)
    requires !HasComment(s)
    ensures StripComments(s) == s
  {
    if s != [] {
      CommentFreeTail(s);
      NoCommentKept(s[1..]);
    }
  }

  /** The first output character is the first input character, or the blank that replaced a comment. */
  lemma {:induction false} HeadKept(s: string)
    ensures StripComments(s) == [] <==> s == []
    ensures s != [] && StripComments(s)[0] != ' ' ==> StripComments(s)[0] == s[0] && CommentLength(s) == 0
  {
  }

  /** Stripping makes no closing mark out of text that has none. */
  lemma {:induction false} NoMarksOut(s: string)
    requires forall j: nat :: !StarSlashAt(s, j)
    ensures forall j: nat :: !StarSlashAt(StripComments(s), j)
  {
    if s != [] {
      var t := StripComments(s);
      var n := if CommentLength(s) > 0 then CommentLength(s) else 1;
      var rest := StripComments(s[n..]);
      forall j: nat ensures !StarSlashAt(s[n..], j) {
        assert !StarSlashAt(s, n + j);
      }
      NoMarksOut(s[n..]);
      HeadKept(s[n..]);
      assert !StarSlashAt(s, 0);
      assert t[1..] == rest;
      forall j: nat ensures !StarSlashAt(t, j) {
        assert j > 0 ==> !StarSlashAt(rest, j - 1);
      }
    }
  }

  /** An open block stays open: the text after it gains no closing mark. */
  lemma {:induction false} OpenStaysOpen(s: string)
    requires SlashStarAt(s, 0) && BlockEnd(s, 2) == |s|
    ensures |StripComments(s)| >= 2 && BlockEnd(StripComments(s), 2) == |StripComments(s)|
  {
    var t := StripComments(s);
    var rest := StripComments(s[2..]);
    assert CommentLength(s[1..]) == 0;
    assert s[1..][1..] == s[2..];
    assert StripComments(s[1..]) == [s[1]] + rest;
    assert t == [s[0]] + ([s[1]] + rest);
    forall j: nat ensures !StarSlashAt(s[2..], j) {
      assert !StarSlashAt(s, j + 2);
    }
    NoMarksOut(s[2..]);
    assert t[2..] == rest;
    forall j: nat ensures j >= 2 ==> !StarSlashAt(t, j) {
      assert j >= 2 ==> !StarSlashAt(rest, j - 2);
    }
  }

  /** No comment begins where the output begins. */
  lemma {:induction false} NoCommentAtHead(s: string)
    ensures CommentLength(StripComments(s)) == 0
  {
    if s != [] && CommentLength(s) == 0 {
      assert StripComments(s) == [s[0]] + StripComments(s[1..]);
      HeadKept(s[1..]);
      if SlashStarAt(s, 0) {
        OpenStaysOpen(s);
      }
    }
  }

  /** After stripping no comment is left: no `--` anywhere and no block with both its ends. */
  lemma {:induction false} NoCommentLeft(s: string)
    ensures !HasComment(StripComments(s))
  {
    if s != [] {
      var t := StripComments(s);
      var n := if CommentLength(s) > 0 then CommentLength(s) else 1;
      var rest := StripComments(s[n..]);
      NoCommentLeft(s[n..]);
      NoCommentAtHead(s);
      assert t[1..] == rest;
      forall i | 0 <= i <= |t| ensures CommentLength(t[i..]) == 0 {
        if i == 0 {
          assert t[0..] == t;
        } else {
          assert t[i..] == rest[i - 1..];
        }
      }
    }
  }

  /** Comment stripping is idempotent. */
  lemma {:induction false} StripCommentsTwice(s: string)
    ensures StripComments(StripComments(s)) == StripComments(s)
  {
    NoCommentLeft(s);
    NoCommentKept(StripComments(s));
  }

  /** The first comment of the text begins at `i`. */
  ghost predicate FirstComment(s: string, i: nat) {
    && i < |s| && CommentLength(s[i..]) > 0
    && forall j :: 0 <= j < i ==> CommentLength(s[j..]) == 0
  }

  lemma FirstCommentLater(s: string, i: nat)
    requires FirstComment(s, i) && i > 0
    ensures CommentLength(s) == 0 && s[1..][i - 1..] == s[i..] && FirstComment(s[1..], i - 1)
  {
    assert s[0..] == s;
    assert s[1..][i - 1..] == s[i..];
    hide CommentLength;
    forall j | 0 <= j < i - 1 ensures CommentLength(s[1..][j..]) == 0 {
      assert s[1..][j..] == s[j + 1..];
    }
  }

  lemma {:induction false} StripHere(s: string)
    requires CommentLength(s) > 0
    ensures StripComments(s) == s[..0] + [' '] + StripComments(s[0 + CommentLength(s)..])
  {
    hide CommentLength;
  }

  lemma {:induction false} StripLater(s: string)
    requires s != [] && CommentLength(s) == 0
    ensures StripComments(s) == [s[0]] + StripComments(s[1..])
  {
    hide CommentLength;
  }

  lemma TakeFirst(s: string, i: nat, t: string)
    requires 0 < i <= |s|
    ensures [s[0]] + (s[1..][..i - 1] + [' '] + t) == s[..i] + [' '] + t
  {
    assert s[..i] == [s[0]] + s[1..][..i - 1];
  }

  /** What stripping does at the leftmost comment: the text before it stays, it becomes one space, and the rest is
      stripped in turn. */
  lemma {:induction false} LeftmostFirst(s: string, i: nat)
    requires FirstComment(s, i)
    ensures i + CommentLength(s[i..]) <= |s|
    ensures StripComments(s) == s[..i] + [' '] + StripComments(s[i + CommentLength(s[i..])..])
  {
    hide CommentLength, StripComments;
    var n := CommentLength(s[i..]);
    if i == 0 {
      assert s[0..] == s;
      StripHere(s);
    } else {
      FirstCommentLater(s, i);
      LeftmostFirst(s[1..], i - 1);
      hide FirstComment;
      StripLater(s);
      assert s[1..][i - 1 + n..] == s[i + n..];
      TakeFirst(s, i, StripComments(s[i + n..]));
    }
  }

  // ---------------------------------------------------------------- the search and the words

  predicate IsWord(w: string) {
    w != "" && forall i :: 0 <= i < |w| ==> IsWordChar(w[i])
  }

  lemma {:induction false} FirstWord(s: string, w: string, i: nat)
    requires IsWord(w) && WordAt(s, w, i) && i < WordLength(s)
    ensures i == 0 && w == s[..WordLength(s)]
  {
    assert forall k :: 0 <= k < |w| ==> w[k] == s[i + k];
  }

  /** A word found past the first run is found in the rest, and the other way round. */
  lemma FoundInRest(s: string, w: string, k: nat, i: nat)
    requires IsWord(w) && 0 < k <= |s|
    requires IsWordChar(s[k - 1]) ==> k < |s| ==> !IsWordChar(s[k])
    ensures WordAt(s, w, k + i) <==> WordAt(s[k..], w, i)
  {
    if k + i + |w| <= |s| {
      assert s[k..][i..i + |w|] == s[k + i..k + i + |w|];
      assert s[k + i..k + i + |w|] == w ==> s[k + i] == w[0];
    }
  }

  /** Searching with word boundaries finds exactly the maximal words. */
  lemma {:induction false} FoundIffMaximal(s: string, w: string)
    requires IsWord(w)
    ensures HasWord(s, w) <==> w in Words(s)
  {
    if s != [] {
      var n := WordLength(s);
      var k := if n > 0 then n else 1;
      FoundIffMaximal(s[k..], w);
      forall i: nat ensures WordAt(s, w, k + i) <==> WordAt(s[k..], w, i) {
        FoundInRest(s, w, k, i);
      }
      assert HasWord(s, w) <==> (exists i :: 0 <= i < k && WordAt(s, w, i)) || HasWord(s[k..], w) by {
        if i :| k <= i < |s| && WordAt(s, w, i) {
          assert WordAt(s[k..], w, i - k);
        }
        if i :| 0 <= i < |s[k..]| && WordAt(s[k..], w, i) {
          assert WordAt(s, w, k + i);
        }
      }
      assert (exists i :: 0 <= i < k && WordAt(s, w, i)) <==> n > 0 && w == s[..n] by {
        forall i | 0 <= i < k && WordAt(s, w, i) ensures n > 0 && w == s[..n] {
          assert s[i] == w[0];
          FirstWord(s, w, i);
        }
        if n > 0 && w == s[..n] { assert WordAt(s, w, 0); }
      }
    }
  }

  lemma BlockedAreWords(k: nat)
    requires k < |BLOCKED|
    ensures IsWord(BLOCKED[k])
  {
  }

  /** `is_safe_sql` holds exactly when no maximal word of the comment-free lower-case text is blocked. */
  lemma SafeIffNoBlockedWord(sql: string)
    ensures IsSafeSql(sql) <==> forall w :: w in Words(StripComments(Lower(sql))) ==> w !in BLOCKED
  {
    var normalized := StripComments(Lower(sql));
    forall k | 0 <= k < |BLOCKED| ensures HasWord(normalized, BLOCKED[k]) <==> BLOCKED[k] in Words(normalized) {
      BlockedAreWords(k);
      FoundIffMaximal(normalized, BLOCKED[k]);
    }
    NoneBlocked(Words(normalized));
  }

  lemma NoneBlocked(words: seq<string>)
    ensures (forall k :: 0 <= k < |BLOCKED| ==> BLOCKED[k] !in words) <==> forall w :: w in words ==> w !in BLOCKED
  {
  }
}
