/** The columns a statement refers to (backend/sql_intelligence.py, extract_referenced_columns): every `name.name`
    outside quotes, and the plain names of the first select list. */
module SqlColumns {
  import opened Wrappers
  import opened Text
  import opened Guardrails
  import opened SchemaText

  // ---------------------------------------------------------------- quoted text

  predicate IsQuote(c: char) { c == '\'' || c == '"' }

  /** The first `q` at or after `from`, or the length of the text. */
  function QuoteEnd(s: string, q: char, from: nat): (r: nat)
    requires from <= |s|
    ensures from <= r <= |s| && (r < |s| ==> s[r] == q)
    ensures forall i :: from <= i < r ==> s[i] != q
    decreases |s| - from
  {
    if from == |s| || s[from] == q then from else QuoteEnd(s, q, from + 1)
  }

  /** The length of the quoted text at the start, or 0. */
  function QuotedLength(s: string): (n: nat)
    ensures n <= |s|
  {
    if s != [] && IsQuote(s[0]) && QuoteEnd(s, s[0], 1) < |s| then QuoteEnd(s, s[0], 1) + 1 else 0
  }

  /** `re.sub`: quoted text goes, leftmost first. */
  function Unquoted(s: string): string {
    if s == [] then []
    else if QuotedLength(s) > 0 then Unquoted(s[QuotedLength(s)..])
    else [s[0]] + Unquoted(s[1..])
  }

  /** Each kind of quote occurs at most once. */
  ghost predicate NoneQuoted(s: string) {
    forall i, j :: 0 <= i < j < |s| && IsQuote(s[i]) ==> s[i] != s[j]
  }

  lemma {:induction false} UnquotedFrom(s: string)
    ensures forall c :: c in Unquoted(s) ==> c in s
  {
    if s != [] {
      var n := if QuotedLength(s) > 0 then QuotedLength(s) else 1;
      UnquotedFrom(s[n..]);
      assert s == s[..n] + s[n..];
    }
  }

  /** What is left has no quoted text any more: taking some out puts no new pair of quotes together. */
  lemma {:induction false} NoQuotesLeft(s: string)
    ensures NoneQuoted(Unquoted(s))
  {
    if s != [] {
      var n := if QuotedLength(s) > 0 then QuotedLength(s) else 1;
      NoQuotesLeft(s[n..]);
      if QuotedLength(s) == 0 {
        var rest := Unquoted(s[1..]);
        UnquotedFrom(s[1..]);
        assert IsQuote(s[0]) ==> s[0] !in s[1..];
        assert IsQuote(s[0]) ==> s[0] !in rest;
      }
    }
  }

  lemma {:induction false} NoneQuotedKept(s: string)
    requires NoneQuoted(s)
    ensures Unquoted(s) == s
  {
    if s != [] {
      assert QuotedLength(s) == 0;
      assert NoneQuoted(s[1..]) by { assert forall i :: 0 <= i < |s[1..]| ==> s[1..][i] == s[i + 1]; }
      NoneQuotedKept(s[1..]);
    }
  }

  lemma {:induction false} UnquotedTwice(s: string)
    ensures Unquoted(Unquoted(s)) == Unquoted(s)
  {
    NoQuotesLeft(s);
    NoneQuotedKept(Unquoted(s));
  }

  // ---------------------------------------------------------------- qualified names

  /** The length of `name.name` at the start of the text, or 0. */
  function PairLength(s: string): (n: nat)
    ensures n <= |s|
    ensures n > 0 ==> n > 2 && IsWordChar(s[n - 1])
  {
    var n := WordLength(s);
    if n > 0 && IsIdentStart(s[0]) && n + 1 < |s| && s[n] == '.' && IsIdentStart(s[n + 1]) then
      var rest := s[n + 1..];
      assert IsWordChar(rest[0]);
      assert IsWordChar(rest[WordLength(rest) - 1]);
      n + 1 + WordLength(rest)
    else 0
  }

  /** `re.findall`: leftmost pairs, one after the other. */
  function FindPairs(s: string, inWord: bool): seq<string>
    decreases |s|
  {
    if s == [] then []
    else if !inWord && PairLength(s) > 0 then [s[..PairLength(s)]] + FindPairs(s[PairLength(s)..], true)
    else FindPairs(s[1..], IsWordChar(s[0]))
  }

  predicate WordChars(s: string) {
    forall i :: 0 <= i < |s| ==> IsWordChar(s[i])
  }

  /** Two names, from `k` and up to `b`, with a dot at `m` between them; neither can be made longer. */
  ghost predicate PairAt(s: string, inWord: bool, k: int, m: int, b: int): (r: bool)
    ensures r ==> 0 <= k < m && m + 1 < b <= |s|
  {
    && 0 <= k < m && m + 1 < b <= |s|
    && !(if k == 0 then inWord else IsWordChar(s[k - 1]))
    && IsIdentStart(s[k]) && WordChars(s[k..m]) && s[m] == '.'
    && IsIdentStart(s[m + 1]) && WordChars(s[m + 1..b])
    && (b == |s| || !IsWordChar(s[b]))
  }

  lemma {:induction false} PairParts(s: string)
    requires PairLength(s) > 0
    ensures var m := WordLength(s);
      0 < m && m + 1 < |s| && IsIdentStart(s[0]) && s[m] == '.' && IsIdentStart(s[m + 1])
      && PairLength(s) == m + 1 + WordLength(s[m + 1..])
  {
    hide WordLength, IsWordChar, IsIdentStart;
  }

  /** A maximal word that begins at `a`. */
  lemma WordSpan(s: string, a: nat)
    requires a <= |s|
    ensures var b := a + WordLength(s[a..]); WordChars(s[a..b]) && (b < |s| ==> !IsWordChar(s[b]))
  {
    var t, b := s[a..], a + WordLength(s[a..]);
    hide IsWordChar;
    assert s[a..b] == t[..b - a];
    assert b < |s| ==> s[b] == t[b - a];
  }

  lemma {:induction false} PairHere(s: string)
    requires PairLength(s) > 0
    ensures PairAt(s, false, 0, WordLength(s), PairLength(s))
  {
    PairParts(s);
    WordSpan(s, 0);
    WordSpan(s, WordLength(s) + 1);
    hide PairLength, WordLength, WordChars, IsWordChar, IsIdentStart;
    assert s[0..] == s;
    assert WordLength(s[WordLength(s) + 1..]) > 0 by { StartsWord(s[WordLength(s) + 1..]); }
  }

  lemma {:induction false} StartsWord(s: string)
    requires s != [] && IsIdentStart(s[0])
    ensures WordLength(s) > 0
  {
  }

  lemma {:induction false} WordLengthIs(s: string, n: nat)
    requires n <= |s| && WordChars(s[..n]) && (n == |s| || !IsWordChar(s[n]))
    ensures WordLength(s) == n
  {
    assert forall i :: 0 <= i < n ==> s[i] == s[..n][i];
  }

  lemma PairThere(s: string, inWord: bool, m: int, b: int)
    requires PairAt(s, inWord, 0, m, b)
    ensures !inWord && PairLength(s) == b
  {
    assert s[0..m] == s[..m];
    WordLengthIs(s, m);
    assert s[m + 1..][..b - m - 1] == s[m + 1..b];
    WordLengthIs(s[m + 1..], b - m - 1);
  }

  lemma PairShift(s: string, inWord: bool, d: nat, k: int, m: int, b: int)
    requires 0 < d <= |s| && PairAt(s[d..], IsWordChar(s[d - 1]), k, m, b)
    ensures PairAt(s, inWord, k + d, m + d, b + d) && s[d..][k..b] == s[k + d..b + d]
  {
    var t := s[d..];
    hide IsWordChar, IsIdentStart;
    assert t[k..m] == s[k + d..m + d];
    assert t[m + 1..b] == s[m + 1 + d..b + d];
    assert t[k..b] == s[k + d..b + d];
  }

  lemma PairUnshift(s: string, inWord: bool, d: nat, k: int, m: int, b: int)
    requires 0 < d <= k && PairAt(s, inWord, k, m, b)
    ensures PairAt(s[d..], IsWordChar(s[d - 1]), k - d, m - d, b - d)
  {
    var t := s[d..];
    hide IsWordChar, IsIdentStart;
    assert t[k - d..m - d] == s[k..m];
    assert t[m + 1 - d..b - d] == s[m + 1..b];
  }

  lemma {:induction false} NoPairs(inWord: bool)
    ensures FindPairs("", inWord) == []
  {
  }

  lemma {:induction false} PairsHere(s: string)
    requires PairLength(s) > 0
    ensures FindPairs(s, false) == [s[..PairLength(s)]] + FindPairs(s[PairLength(s)..], true)
  {
    hide PairLength;
  }

  lemma {:induction false} PairsLater(s: string, inWord: bool)
    requires s != [] && (inWord || PairLength(s) == 0)
    ensures FindPairs(s, inWord) == FindPairs(s[1..], IsWordChar(s[0]))
  {
    hide PairLength;
  }

  /** Every pair found stands in the text as two maximal names. */
  lemma {:induction false} FoundIsPair(s: string, inWord: bool, t: string) returns (k: int, m: int, b: int)
    requires t in FindPairs(s, inWord)
    ensures PairAt(s, inWord, k, m, b) && t == s[k..b]
    decreases |s|
  {
    hide PairAt, PairLength, WordLength, FindPairs, IsWordChar;
    if s == [] {
      NoPairs(inWord);
    } else if !inWord && PairLength(s) > 0 {
      PairHere(s);
      PairsHere(s);
      k, m, b := 0, WordLength(s), PairLength(s);
      if t != s[..b] {
        var d := b;
        var k', m', b' := FoundIsPair(s[d..], true, t);
        PairEndsWord(s);
        PairShift(s, inWord, d, k', m', b');
        k, m, b := k' + d, m' + d, b' + d;
      }
    } else {
      PairsLater(s, inWord);
      var k', m', b' := FoundIsPair(s[1..], IsWordChar(s[0]), t);
      PairShift(s, inWord, 1, k', m', b');
      k, m, b := k' + 1, m' + 1, b' + 1;
    }
  }

  lemma PairEndsWord(s: string)
    requires PairLength(s) > 0
    ensures IsWordChar(s[PairLength(s) - 1])
  {
  }

  /** Every such pair is found, unless its first name was read as the second of the pair before: of `a.b.c` only `a.b`
      is a reference. */
  lemma {:induction false} PairIsFound(s: string, inWord: bool, k: int, m: int, b: int)
    returns (k0: int, m0: int, b0: int)
    requires PairAt(s, inWord, k, m, b)
    ensures PairAt(s, inWord, k0, m0, b0) && s[k0..b0] in FindPairs(s, inWord)
    ensures (k0 == k && b0 == b) || (k0 < k && m0 + 1 == k && b0 == m)
    decreases |s|
  {
    hide PairAt, PairLength, WordLength, FindPairs, IsWordChar;
    if !inWord && PairLength(s) > 0 {
      PairHere(s);
      PairsHere(s);
      k0, m0, b0 := 0, WordLength(s), PairLength(s);
      var d := b0;
      assert s[..d] == s[0..d];
      if k == 0 {
        PairThere(s, inWord, m, b);
      } else if k < d {
        SecondName(s, inWord, k, m, b);
      } else {
        PairEndsWord(s);
        PairUnshift(s, inWord, d, k, m, b);
        var k', m', b' := PairIsFound(s[d..], true, k - d, m - d, b - d);
        PairShift(s, inWord, d, k', m', b');
        k0, m0, b0 := k' + d, m' + d, b' + d;
      }
    } else {
      PairsLater(s, inWord);
      if k == 0 { PairThere(s, inWord, m, b); }
      PairUnshift(s, inWord, 1, k, m, b);
      var k', m', b' := PairIsFound(s[1..], IsWordChar(s[0]), k - 1, m - 1, b - 1);
      PairShift(s, inWord, 1, k', m', b');
      k0, m0, b0 := k' + 1, m' + 1, b' + 1;
    }
  }

  lemma PairChars(s: string, inWord: bool, k: int, m: int, b: int)
    requires PairAt(s, inWord, k, m, b)
    ensures IsWordChar(s[k]) && !IsWordChar(s[m])
    ensures (k > 0 ==> !IsWordChar(s[k - 1])) && (b < |s| ==> !IsWordChar(s[b]))
    ensures forall i :: k <= i < m || m < i < b ==> IsWordChar(s[i])
  {
    assert IsWordChar(s[k]);
    assert !IsWordChar('.');
    hide IsWordChar;
    assert forall i :: k <= i < m ==> s[i] == s[k..m][i - k];
    assert forall i :: m < i < b ==> s[i] == s[m + 1..b][i - m - 1];
  }

  /** A pair that begins inside the pair at the start begins at its second name. */
  lemma {:induction false} SecondName(s: string, inWord: bool, k: int, m: int, b: int)
    requires PairLength(s) > 0 && 0 < k < PairLength(s) && PairAt(s, inWord, k, m, b)
    ensures k == WordLength(s) + 1 && m == PairLength(s)
  {
    PairHere(s);
    PairChars(s, false, 0, WordLength(s), PairLength(s));
    PairChars(s, inWord, k, m, b);
    hide PairAt, WordLength, PairLength, IsWordChar;
  }

  // ---------------------------------------------------------------- the select list

  /** The first place at or after `from` where `w` stands as a word, or -1. */
  function FindWord(s: string, w: string, from: nat): (r: int)
    ensures r != -1 ==> from <= r < |s| && WordAt(s, w, r) && forall i :: from <= i < r ==> !WordAt(s, w, i)
    ensures r == -1 ==> forall i :: from <= i < |s| ==> !WordAt(s, w, i)
    decreases |s| - from
  {
    if from >= |s| then -1 else if WordAt(s, w, from) then from else FindWord(s, w, from + 1)
  }

  /** What stands between the first `select` and the first `from` after it. A later `select` has no other `from`. */
  function SelectList(s: string): Option<string> {
    var l := Lower(s);
    var i := FindWord(l, "select", 0);
    if i == -1 then None
    else
      var j := FindWord(l, "from", i + 7);
      if j == -1 then None else Some(s[i + 6..j])
  }

  /** `s.split(",")`. */
  function SplitCommas(s: string, piece: string): (pieces: seq<string>)
    ensures pieces != []
    decreases |s|
  {
    if s == [] then [piece]
    else if s[0] == ',' then [piece] + SplitCommas(s[1..], "")
    else SplitCommas(s[1..], piece + [s[0]])
  }

  const FUNCTIONS: set<string> := {"sum", "count", "avg", "min", "max", "round", "cast"}

  /** The length of a function name and its opening parenthesis at the start of the text, or 0. */
  function CallLength(s: string): (n: nat)
    ensures n <= |s|
  {
    var n := WordLength(s);
    var k := n + SpaceRun(s[n..]);
    if Lower(s[..n]) in FUNCTIONS && k < |s| && s[k] == '(' then k + 1 else 0
  }

  function DropCalls(s: string, inWord: bool): string
    decreases |s|
  {
    if s == [] then []
    else if !inWord && CallLength(s) > 0 then DropCalls(s[CallLength(s)..], false)
    else [s[0]] + DropCalls(s[1..], IsWordChar(s[0]))
  }

  /** The length of `as` and a name at the start of the text, or 0. */
  function RenameLength(s: string): (n: nat)
    ensures n <= |s|
  {
    if |s| < 2 || Lower(s[..2]) != "as" then 0
    else
      var k := 2 + SpaceRun(s[2..]);
      if 2 < k < |s| && IsIdentStart(s[k]) then k + WordLength(s[k..]) else 0
  }

  function DropRenames(s: string, inWord: bool): string
    decreases |s|
  {
    if s == [] then []
    else if !inWord && RenameLength(s) > 0 then DropRenames(s[RenameLength(s)..], true)
    else [s[0]] + DropRenames(s[1..], IsWordChar(s[0]))
  }

  predicate Padding(c: char) { c == ' ' || c == '(' || c == ')' }

  /** `s.strip(" ()")`. */
  function StripPadding(s: string): string {
    if s != [] && Padding(s[0]) then StripPadding(s[1..])
    else if s != [] && Padding(s[|s| - 1]) then StripPadding(s[..|s| - 1])
    else s
  }

  function Token(piece: string): string {
    StripPadding(DropRenames(DropCalls(piece, false), false))
  }

  predicate NameOnly(s: string) {
    s != "" && IsIdentStart(s[0]) && forall i :: 0 <= i < |s| ==> IsWordChar(s[i]) || s[i] == '.'
  }

  /** `^[A-Za-z_][\w.]*$`, whose `$` also matches before a final newline. */
  predicate IsName(s: string) {
    NameOnly(s) || (s != "" && s[|s| - 1] == '\n' && NameOnly(s[..|s| - 1]))
  }

  // ---------------------------------------------------------------- the sorted set of references

  /** The order of texts by code point. */
  predicate Less(a: string, b: string) {
    b != [] && (a == [] || a[0] < b[0] || (a[0] == b[0] && Less(a[1..], b[1..])))
  }

  lemma {:induction false} LessTotal(a: string, b: string)
    ensures (Less(a, b) && !Less(b, a) && a != b) || (Less(b, a) && !Less(a, b) && a != b)
      || (a == b && !Less(a, b))
  {
    if a != [] && b != [] {
      LessTotal(a[1..], b[1..]);
      assert a == [a[0]] + a[1..] && b == [b[0]] + b[1..];
    }
  }

  lemma {:induction false} LessChains(a: string, b: string, c: string)
    requires Less(a, b) && Less(b, c)
    ensures Less(a, c)
  {
    if a != [] && a[0] == b[0] == c[0] {
      LessChains(a[1..], b[1..], c[1..]);
    }
  }

  ghost predicate Increasing(s: seq<string>) {
    forall i, j :: 0 <= i < j < |s| ==> Less(s[i], s[j])
  }

  /** A set of texts is kept as its sorted list; this adds one. */
  function Add(x: string, s: seq<string>): seq<string> {
    if s == [] || Less(x, s[0]) then [x] + s
    else if x == s[0] then s
    else [s[0]] + Add(x, s[1..])
  }

  function AddAll(names: seq<string>, s: seq<string>): seq<string> {
    if names == [] then s else Add(names[|names| - 1], AddAll(names[..|names| - 1], s))
  }

  lemma {:induction false} AddSorted(x: string, s: seq<string>)
    requires Increasing(s)
    ensures Increasing(Add(x, s)) && forall y :: y in Add(x, s) <==> y == x || y in s
  {
    if s == [] {
    } else if Less(x, s[0]) {
      forall j | 0 <= j < |s| ensures Less(x, s[j]) {
        if j > 0 { LessChains(x, s[0], s[j]); }
      }
    } else if x != s[0] {
      LessTotal(x, s[0]);
      assert s == [s[0]] + s[1..];
      AddSorted(x, s[1..]);
      var t := Add(x, s[1..]);
      forall j | 0 <= j < |t| ensures Less(s[0], t[j]) {
        assert t[j] in t;
      }
    }
  }

  lemma {:induction false} AddAllSorted(names: seq<string>, s: seq<string>)
    requires Increasing(s)
    ensures Increasing(AddAll(names, s)) && forall y :: y in AddAll(names, s) <==> y in names || y in s
  {
    if names != [] {
      AddAllSorted(names[..|names| - 1], s);
      AddSorted(names[|names| - 1], AddAll(names[..|names| - 1], s));
      assert names == names[..|names| - 1] + [names[|names| - 1]];
    }
  }

  /** The tokens that are names, in order. */
  function Names(pieces: seq<string>): seq<string> {
    if pieces == [] then []
    else
      var token := Token(pieces[|pieces| - 1]);
      Names(pieces[..|pieces| - 1]) + (if IsName(token) then [token] else [])
  }

  function SelectNames(cleaned: string): seq<string> {
    match SelectList(cleaned)
    case None => []
    case Some(list) => Names(SplitCommas(list, ""))
  }

  function ReferencedColumns(sql: string): seq<string> {
    var cleaned := Unquoted(sql);
    AddAll(SelectNames(cleaned), AddAll(FindPairs(cleaned, false), []))
  }

  /** `extract_referenced_columns`. */
  method ExtractReferencedColumns(sql: string) returns (references: seq<string>)
    ensures references == ReferencedColumns(sql)
  {
    hide Token, IsName, SplitCommas, SelectList, FindPairs, Unquoted;
    var cleaned := Unquoted(sql);
    var pairs := AddAll(FindPairs(cleaned, false), []);
    references := pairs;
    var list := SelectList(cleaned);
    if list.Some? {
      var pieces := SplitCommas(list.value, "");
      for i := 0 to |pieces|
        invariant references == AddAll(Names(pieces[..i]), pairs)
      {
        assert pieces[..i + 1][..i] == pieces[..i];
        var token := Token(pieces[i]);
        assert Names(pieces[..i]) + [] == Names(pieces[..i]);
        if IsName(token) {
          AddSnoc(Names(pieces[..i]), token, pairs);
          references := Add(token, references);
        }
      }
      assert pieces[..|pieces|] == pieces;
    }
  }

  lemma {:induction false} AddSnoc(names: seq<string>, x: string, s: seq<string>)
    ensures AddAll(names + [x], s) == Add(x, AddAll(names, s))
  {
    assert (names + [x])[..|names|] == names;
  }

  lemma {:induction false} NamesAre(pieces: seq<string>, x: string)
    ensures x in Names(pieces) <==> IsName(x) && exists i :: 0 <= i < |pieces| && Token(pieces[i]) == x
  {
    hide Token, IsName;
    if pieces != [] {
      NamesAre(pieces[..|pieces| - 1], x);
      assert pieces == pieces[..|pieces| - 1] + [pieces[|pieces| - 1]];
    }
  }

  /** The references come in increasing order, and are the qualified names outside quotes and the plain items of the
      select list. */
  lemma {:induction false} ReferencesAre(sql: string)
    ensures Increasing(ReferencedColumns(sql))
    ensures forall x :: (x in ReferencedColumns(sql)
                         <==> x in FindPairs(Unquoted(sql), false) || x in SelectNames(Unquoted(sql)))
  {
    hide SelectNames, FindPairs, Unquoted, Less;
    var pairs := FindPairs(Unquoted(sql), false);
    AddAllSorted(pairs, []);
    AddAllSorted(SelectNames(Unquoted(sql)), AddAll(pairs, []));
    hide AddAll, Increasing;
  }
}
