/** The tables a statement names and the aliases it gives them (backend/sql_intelligence.py, extract_tables and
    extract_aliases), read off its text. */
module SqlTables {
  import opened Text
  import opened Guardrails
  import opened SchemaText

  // ---------------------------------------------------------------- tables

  predicate KeywordHere(s: string, w: string) {
    |w| <= |s| && Lower(s[..|w|]) == w
  }

  function NameLength(s: string): (n: nat)
    ensures n <= |s|
    ensures forall i :: 0 <= i < n ==> IsWordChar(s[i]) || s[i] == '.'
    ensures n < |s| ==> !IsWordChar(s[n]) && s[n] != '.'
  {
    if s != [] && (IsWordChar(s[0]) || s[0] == '.') then 1 + NameLength(s[1..]) else 0
  }

  /** Where the table name after a keyword at the start of the text begins, or 0. */
  function NameStart(s: string): (n: nat)
    ensures n < |s| || n == 0
    ensures n > 0 ==> IsIdentStart(s[n])
  {
    if KeywordHere(s, "from") || KeywordHere(s, "join") then
      var n := 4 + SpaceRun(s[4..]);
      if 4 < n < |s| && IsIdentStart(s[n]) then n else 0
    else 0
  }

  function NameEnd(s: string): (n: nat)
    ensures n <= |s| && (NameStart(s) > 0 ==> NameStart(s) < n)
  {
    NameStart(s) + NameLength(s[NameStart(s)..])
  }

  /** Leftmost `from`/`join` references one after the other; `inWord` says whether a word character precedes. */
  function FindTables(s: string, inWord: bool): (names: seq<string>)
    ensures s == [] ==> names == []
    decreases |s|
  {
    if s == [] then []
    else if !inWord && NameStart(s) > 0 then
      [s[NameStart(s)..NameEnd(s)]] + FindTables(s[NameEnd(s)..], IsWordChar(s[NameEnd(s) - 1]))
    else FindTables(s[1..], IsWordChar(s[0]))
  }

  /** `dict.fromkeys`: each name once, where it first occurs. */
  function Distinct(names: seq<string>): seq<string> {
    if names == [] then []
    else
      var rest := Distinct(names[..|names| - 1]);
      if names[|names| - 1] in rest then rest else rest + [names[|names| - 1]]
  }

  function ExtractTables(sql: string): seq<string> {
    Distinct(FindTables(sql, false))
  }

  predicate NameChars(s: string) {
    forall i :: 0 <= i < |s| ==> IsWordChar(s[i]) || s[i] == '.'
  }

  /** The word at `k` is `from` or `join`, standing at the start of a word; after white space a name begins at `a`
      and runs on to `b`, as far as it can. */
  ghost predicate ReferenceAt(s: string, inWord: bool, k: int, a: int, b: int): (r: bool)
    ensures r ==> 0 <= k && k + 4 < a < b <= |s|
  {
    && 0 <= k && k + 4 < a < b <= |s|
    && (Lower(s[k..k + 4]) == "from" || Lower(s[k..k + 4]) == "join")
    && !(if k == 0 then inWord else IsWordChar(s[k - 1]))
    && AllSpace(s[k + 4..a])
    && IsIdentStart(s[a]) && NameChars(s[a..b])
    && (b == |s| || !(IsWordChar(s[b]) || s[b] == '.'))
  }

  // ---------------------------------------------------------------- aliases

  /** `extract_aliases` reads these words as no alias. */
  const NOT_ALIASES: set<string> := {"where", "join", "on", "group", "order", "limit"}

  /** An alias as it is written after a table. */
  datatype Declared = Declared(alias: string, table: string)

  /** The word `as`, white space, and a name after it. */
  predicate AsAhead(t: string) {
    KeywordHere(t, "as") && var m := SpaceRun(t[2..]); m > 0 && 2 + m < |t| && IsIdentStart(t[2 + m])
  }

  /** What stands between a table name and its alias: white space, and `as` with more of it when a name follows. */
  function AliasGap(s: string): (n: nat)
    ensures n <= |s|
  {
    var n := SpaceRun(s);
    if n > 0 && AsAhead(s[n..]) then n + 2 + SpaceRun(s[n + 2..]) else n
  }

  /** Where the alias of the table referred to at the start of the text begins, or 0. */
  function AliasStart(s: string): (n: nat)
    ensures n > 0 ==> NameStart(s) > 0 && NameEnd(s) < n < |s| && IsIdentStart(s[n])
  {
    if NameStart(s) == 0 then 0
    else
      var gap := AliasGap(s[NameEnd(s)..]);
      var n := NameEnd(s) + gap;
      if gap > 0 && n < |s| && IsIdentStart(s[n]) then n else 0
  }

  function AliasEnd(s: string): (n: nat)
    requires AliasStart(s) > 0
    ensures AliasStart(s) < n <= |s| && IsWordChar(s[n - 1])
  {
    var rest := s[AliasStart(s)..];
    assert IsWordChar(rest[0]);
    assert IsWordChar(rest[WordLength(rest) - 1]);
    AliasStart(s) + WordLength(rest)
  }

  /** The declarations of the text, leftmost first; what one has read is not read again. */
  function FindAliases(s: string, inWord: bool): (found: seq<Declared>)
    decreases |s|
  {
    if s == [] then []
    else if !inWord && AliasStart(s) > 0 then
      [Declared(s[AliasStart(s)..AliasEnd(s)], s[NameStart(s)..NameEnd(s)])] + FindAliases(s[AliasEnd(s)..], true)
    else FindAliases(s[1..], IsWordChar(s[0]))
  }

  /** The table each alias stands for, by its lower-case text; a later declaration replaces an earlier one. */
  function AliasMap(found: seq<Declared>): map<string, string> {
    if found == [] then map[]
    else
      var before, last := AliasMap(found[..|found| - 1]), found[|found| - 1];
      if Lower(last.alias) in NOT_ALIASES then before else before[Lower(last.alias) := last.table]
  }

  function Aliases(sql: string): map<string, string> {
    AliasMap(FindAliases(sql, false))
  }

  /** `extract_aliases`. */
  method ExtractAliases(sql: string) returns (aliases: map<string, string>)
    ensures aliases == Aliases(sql)
  {
    var found := FindAliases(sql, false);
    aliases := map[];
    for i := 0 to |found|
      invariant aliases == AliasMap(found[..i])
    {
      assert found[..i + 1][..i] == found[..i];
      if Lower(found[i].alias) !in NOT_ALIASES { aliases := aliases[Lower(found[i].alias) := found[i].table]; }
    }
    assert found[..|found|] == found;
  }

  /** Only white space stands before the alias at `c`, or white space, the word `as` at `m` and white space again.
      Where `as` can be read as that word, it is no alias. */
  ghost predicate GapAt(t: string, m: int, c: int) {
    && 0 < m <= c < |t| && AllSpace(t[..m]) && IsIdentStart(t[c])
    && (if m == c then !AsAhead(t[m..])
        else m + 2 < c && Lower(t[m..m + 2]) == "as" && AllSpace(t[m + 2..c]))
  }

  /** Where a declaration stands: keyword, table from `a` to `b`, the end of the white space after it, alias from `c`
      to `d`. */
  datatype Spot = Spot(k: int, a: int, b: int, m: int, c: int, d: int)

  function Moved(p: Spot, w: int): Spot {
    Spot(p.k + w, p.a + w, p.b + w, p.m + w, p.c + w, p.d + w)
  }

  ghost predicate DeclaredAt(s: string, inWord: bool, p: Spot): (r: bool)
    ensures r ==> 0 <= p.k < p.a < p.b < p.c < p.d <= |s|
  {
    && ReferenceAt(s, inWord, p.k, p.a, p.b)
    && GapAt(s[p.b..], p.m - p.b, p.c - p.b)
    && p.c < p.d && p.d - p.c == WordLength(s[p.c..])
  }

  function DeclaredBy(s: string, p: Spot): Declared
    requires 0 <= p.a <= p.b <= p.c <= p.d <= |s|
  {
    Declared(s[p.c..p.d], s[p.a..p.b])
  }

  // ---------------------------------------------------------------- what the extractor finds

  lemma {:induction false} DistinctNames(names: seq<string>)
    ensures forall t :: t in Distinct(names) <==> t in names
    ensures forall i, j :: 0 <= i < j < |Distinct(names)| ==> Distinct(names)[i] != Distinct(names)[j]
  {
    if names != [] {
      DistinctNames(names[..|names| - 1]);
      assert names == names[..|names| - 1] + [names[|names| - 1]];
    }
  }

  lemma ReferenceShift(s: string, inWord: bool, d: nat, k: int, a: int, b: int)
    requires 0 < d <= |s| && ReferenceAt(s[d..], IsWordChar(s[d - 1]), k, a, b)
    ensures ReferenceAt(s, inWord, k + d, a + d, b + d) && s[d..][a..b] == s[a + d..b + d]
  {
    var t := s[d..];
    assert t[k..k + 4] == s[k + d..k + d + 4];
    assert t[k + 4..a] == s[k + d + 4..a + d];
    assert t[a..b] == s[a + d..b + d];
  }

  lemma {:induction false} FindHere(s: string)
    requires NameStart(s) > 0
    ensures FindTables(s, false)
         == [s[NameStart(s)..NameEnd(s)]] + FindTables(s[NameEnd(s)..], IsWordChar(s[NameEnd(s) - 1]))
  {
    hide NameStart, NameLength, NameEnd;
  }

  lemma {:induction false} FindLater(s: string, inWord: bool)
    requires s != [] && (inWord || NameStart(s) == 0)
    ensures FindTables(s, inWord) == FindTables(s[1..], IsWordChar(s[0]))
  {
    hide NameStart, NameLength, NameEnd;
  }

  lemma ReferenceHere(s: string)
    requires NameStart(s) > 0
    ensures ReferenceAt(s, false, 0, NameStart(s), NameEnd(s))
  {
    var a := NameStart(s);
    var b := a + NameLength(s[a..]);
    assert s[a..][0] == s[a];
    SpaceRunIsSpace(s[4..]);
    assert s[4..][..a - 4] == s[4..a];
    assert forall i :: a <= i < b ==> s[i] == s[a..][i - a];
    assert b < |s| ==> s[b] == s[a..][b - a];
  }

  lemma {:induction false} SpaceRunIsSpace(s: string)
    ensures AllSpace(s[..SpaceRun(s)])
  {
    if s != [] && IsSpace(s[0]) {
      SpaceRunIsSpace(s[1..]);
      assert s[..SpaceRun(s)] == [s[0]] + s[1..][..SpaceRun(s[1..])];
    }
  }

  /** Every name the extractor yields stands in the text after a `from` or `join`. */
  lemma {:induction false} FoundIsReference(s: string, inWord: bool, t: string) returns (k: int, a: int, b: int)
    requires t in FindTables(s, inWord)
    ensures ReferenceAt(s, inWord, k, a, b) && t == s[a..b]
    decreases |s|
  {
    hide ReferenceAt, NameStart, NameLength, NameEnd, FindTables, IsWordChar, IsIdentStart;
    if !inWord && NameStart(s) > 0 {
      ReferenceHere(s);
      FindHere(s);
      k, a := 0, NameStart(s);
      b := NameEnd(s);
      if t != s[a..b] {
        var m := b;
        var k', a', b' := FoundIsReference(s[m..], IsWordChar(s[m - 1]), t);
        ReferenceShift(s, inWord, m, k', a', b');
        k, a, b := k' + m, a' + m, b' + m;
      }
    } else {
      FindLater(s, inWord);
      var k', a', b' := FoundIsReference(s[1..], IsWordChar(s[0]), t);
      ReferenceShift(s, inWord, 1, k', a', b');
      k, a, b := k' + 1, a' + 1, b' + 1;
    }
  }

  /** Every reference of the text is found, unless its keyword is itself read as part of a name that was found. */
  lemma {:induction false} ReferenceIsFound(s: string, inWord: bool, k: int, a: int, b: int) returns (a0: int, b0: int)
    requires ReferenceAt(s, inWord, k, a, b)
    ensures 0 <= a0 < b0 <= |s| && s[a0..b0] in FindTables(s, inWord)
    ensures (a0 == a && b0 == b) || a0 <= k < b0
    decreases |s|
  {
    hide ReferenceAt, NameStart, NameLength, NameEnd, FindTables, IsWordChar, IsIdentStart;
    if !inWord && NameStart(s) > 0 {
      ReferenceHere(s);
      FindHere(s);
      a0 := NameStart(s);
      b0 := NameEnd(s);
      var m := b0;
      if k == 0 {
        SameReference(s, a, b, a0, b0);
      } else if k >= b0 {
        ReferenceUnshift(s, inWord, m, k, a, b);
        var a', b' := ReferenceIsFound(s[m..], IsWordChar(s[m - 1]), k - m, a - m, b - m);
        a0, b0 := a' + m, b' + m;
        SliceShift(s, m, a', b');
      } else {
        KeywordOutside(s, inWord, k, a, b, a0);
      }
    } else {
      FindLater(s, inWord);
      if k == 0 { NameStartsThere(s, inWord, a, b); }
      ReferenceUnshift(s, inWord, 1, k, a, b);
      var a', b' := ReferenceIsFound(s[1..], IsWordChar(s[0]), k - 1, a - 1, b - 1);
      a0, b0 := a' + 1, b' + 1;
      SliceShift(s, 1, a', b');
    }
  }

  lemma SliceShift(s: string, d: nat, a: int, b: int)
    requires d <= |s| && 0 <= a <= b <= |s| - d
    ensures s[d..][a..b] == s[a + d..b + d]
  {
  }

  lemma ReferenceUnshift(s: string, inWord: bool, d: nat, k: int, a: int, b: int)
    requires 0 < d <= k && ReferenceAt(s, inWord, k, a, b)
    ensures ReferenceAt(s[d..], IsWordChar(s[d - 1]), k - d, a - d, b - d)
  {
    var t := s[d..];
    assert t[k - d..k - d + 4] == s[k..k + 4];
    assert t[k - d + 4..a - d] == s[k + 4..a];
    assert t[a - d..b - d] == s[a..b];
  }

  lemma {:induction false} SpaceRunIs(s: string, n: nat)
    requires n < |s| && AllSpace(s[..n]) && !IsSpace(s[n])
    ensures SpaceRun(s) == n
  {
    if n > 0 {
      assert s[..n][0] == s[0];
      assert s[1..][..n - 1] == s[..n][1..];
      SpaceRunIs(s[1..], n - 1);
    }
  }

  lemma NameStartsThere(s: string, inWord: bool, a: int, b: int)
    requires ReferenceAt(s, inWord, 0, a, b)
    ensures !inWord && NameStart(s) == a
  {
    assert s[..4] == s[0..4];
    assert s[4..][..a - 4] == s[4..a];
    SpaceRunIs(s[4..], a - 4);
  }

  lemma SameReference(s: string, a: int, b: int, a0: int, b0: int)
    requires ReferenceAt(s, false, 0, a, b) && ReferenceAt(s, false, 0, a0, b0)
    ensures a == a0 && b == b0
  {
    NameStartsThere(s, false, a, b);
    NameStartsThere(s, false, a0, b0);
    assert forall i :: a <= i < b ==> s[i] == s[a..b][i - a];
    assert forall i :: a <= i < b0 ==> s[i] == s[a..b0][i - a];
  }

  /** A second keyword cannot begin before the name that follows the first. */
  lemma KeywordOutside(s: string, inWord: bool, k: int, a: int, b: int, a0: int)
    requires NameStart(s) == a0 > 0 && k > 0 && ReferenceAt(s, inWord, k, a, b)
    ensures a0 <= k
  {
    assert LowerChar(s[k]) == 'f' || LowerChar(s[k]) == 'j' by {
      assert Lower(s[k..k + 4])[0] == LowerChar(s[k]);
    }
    SpaceRunIsSpace(s[4..]);
    assert forall i :: 4 <= i < a0 ==> s[i] == s[4..][..a0 - 4][i - 4];
    assert forall i :: 0 <= i < 4 ==> IsWordChar(s[i]) by {
      assert forall i :: 0 <= i < 4 ==> Lower(s[..4])[i] == LowerChar(s[i]);
    }
  }

  /** The last declaration of an alias decides: an alias is in the map exactly if it was declared and is none of the
      excluded words, and stands for the table of its last declaration. */
  lemma {:induction false} LastDeclarationWins(found: seq<Declared>, x: string)
    ensures x in AliasMap(found) <==> x !in NOT_ALIASES && exists i :: 0 <= i < |found| && Lower(found[i].alias) == x
    ensures x in AliasMap(found) ==>
      exists i :: (0 <= i < |found| && Lower(found[i].alias) == x && AliasMap(found)[x] == found[i].table
                   && forall j :: i < j < |found| ==> Lower(found[j].alias) != x)
  {
    if found != [] {
      var n := |found| - 1;
      LastDeclarationWins(found[..n], x);
      hide AliasMap;
    }
  }

  /** The gap the extractor skips is such a gap. */
  lemma GapHere(t: string) returns (m: int)
    requires AliasGap(t) > 0 && AliasGap(t) < |t| && IsIdentStart(t[AliasGap(t)])
    ensures GapAt(t, m, AliasGap(t))
  {
    m := SpaceRun(t);
    SpaceRunIsSpace(t);
    if m != AliasGap(t) {
      SpaceRunIsSpace(t[m + 2..]);
      assert t[m..m + 2] == t[m..][..2];
      assert t[m + 2..AliasGap(t)] == t[m + 2..][..SpaceRun(t[m + 2..])];
    }
  }

  /** And there is no other. */
  lemma GapThere(t: string, m: int, c: int)
    requires GapAt(t, m, c)
    ensures AliasGap(t) == c
  {
    if m != c {
      assert LowerChar(t[m]) == 'a' by { assert Lower(t[m..m + 2])[0] == LowerChar(t[m]); }
      assert t[m..][..2] == t[m..m + 2];
      assert t[m + 2..][..c - m - 2] == t[m + 2..c];
      SpaceRunIs(t[m + 2..], c - m - 2);
      assert t[m..][2..] == t[m + 2..];
    }
    SpaceRunIs(t, m);
  }

  lemma AliasParts(s: string)
    requires AliasStart(s) > 0
    ensures var t, gap := s[NameEnd(s)..], AliasGap(s[NameEnd(s)..]);
      NameStart(s) > 0 && AliasStart(s) == NameEnd(s) + gap && 0 < gap < |t| && IsIdentStart(t[gap])
      && AliasEnd(s) - AliasStart(s) == WordLength(s[AliasStart(s)..])
  {
    hide NameStart, NameEnd, AliasGap, WordLength, IsIdentStart, IsWordChar;
  }

  lemma AliasHere(s: string) returns (p: Spot)
    requires AliasStart(s) > 0
    ensures p == Spot(0, NameStart(s), NameEnd(s), p.m, AliasStart(s), AliasEnd(s))
    ensures DeclaredAt(s, false, p)
  {
    AliasParts(s);
    ReferenceHere(s);
    hide ReferenceAt, NameStart, NameEnd, AliasGap, GapAt, WordLength, IsWordChar, IsIdentStart, AliasStart, AliasEnd;
    var m := GapHere(s[NameEnd(s)..]);
    p := Spot(0, NameStart(s), NameEnd(s), NameEnd(s) + m, AliasStart(s), AliasEnd(s));
    Declares(s, false, p);
    hide DeclaredAt;
  }

  lemma AliasThere(s: string, inWord: bool, p: Spot)
    requires DeclaredAt(s, inWord, p) && p.k == 0
    ensures !inWord && NameStart(s) == p.a && NameEnd(s) == p.b && AliasStart(s) == p.c && AliasEnd(s) == p.d
  {
    hide ReferenceAt, GapAt, AliasGap, NameStart, NameEnd;
    NameStartsThere(s, inWord, p.a, p.b);
    ReferenceHere(s);
    SameReference(s, p.a, p.b, NameStart(s), NameEnd(s));
    GapThere(s[p.b..], p.m - p.b, p.c - p.b);
    assert IsIdentStart(s[p.b..][p.c - p.b]) by { GapBounds(s[p.b..], p.m - p.b, p.c - p.b); }
  }

  lemma GapBounds(t: string, m: int, c: int)
    requires GapAt(t, m, c)
    ensures 0 < c < |t| && IsIdentStart(t[c])
  {
  }

  lemma DropDrop(s: string, d: nat, a: int)
    requires d <= |s| && 0 <= a <= |s| - d
    ensures s[d..][a..] == s[a + d..]
  {
  }

  lemma Declares(s: string, inWord: bool, p: Spot)
    requires ReferenceAt(s, inWord, p.k, p.a, p.b) && GapAt(s[p.b..], p.m - p.b, p.c - p.b)
    requires p.c < p.d && p.d - p.c == WordLength(s[p.c..])
    ensures DeclaredAt(s, inWord, p)
  {
    hide ReferenceAt, GapAt, WordLength;
  }

  lemma DeclaredParts(s: string, inWord: bool, p: Spot)
    requires DeclaredAt(s, inWord, p)
    ensures ReferenceAt(s, inWord, p.k, p.a, p.b) && GapAt(s[p.b..], p.m - p.b, p.c - p.b)
    ensures p.c < p.d && p.d - p.c == WordLength(s[p.c..])
  {
    hide ReferenceAt, GapAt, WordLength;
  }

  lemma DeclaredShift(s: string, inWord: bool, w: nat, p: Spot)
    requires 0 < w <= |s| && DeclaredAt(s[w..], IsWordChar(s[w - 1]), p)
    ensures DeclaredAt(s, inWord, Moved(p, w)) && DeclaredBy(s, Moved(p, w)) == DeclaredBy(s[w..], p)
  {
    hide ReferenceAt, GapAt, WordLength, IsWordChar;
    DeclaredParts(s[w..], IsWordChar(s[w - 1]), p);
    hide DeclaredAt;
    ReferenceShift(s, inWord, w, p.k, p.a, p.b);
    DropDrop(s, w, p.b);
    DropDrop(s, w, p.c);
    SliceShift(s, w, p.c, p.d);
    SliceShift(s, w, p.a, p.b);
    Declares(s, inWord, Moved(p, w));
  }

  lemma DeclaredUnshift(s: string, inWord: bool, w: int, p: Spot)
    requires 0 < w <= p.k && DeclaredAt(s, inWord, p)
    ensures DeclaredAt(s[w..], IsWordChar(s[w - 1]), Moved(p, -w))
  {
    hide ReferenceAt, GapAt, WordLength, IsWordChar;
    DeclaredParts(s, inWord, p);
    hide DeclaredAt;
    ReferenceUnshift(s, inWord, w, p.k, p.a, p.b);
    DropDrop(s, w, p.b - w);
    DropDrop(s, w, p.c - w);
    Declares(s[w..], IsWordChar(s[w - 1]), Moved(p, -w));
  }

  lemma {:induction false} NoAliases(inWord: bool)
    ensures FindAliases("", inWord) == []
  {
  }

  lemma {:induction false} AliasFindHere(s: string, p: Spot)
    requires AliasStart(s) > 0 && p.a == NameStart(s) && p.b == NameEnd(s) && p.c == AliasStart(s) && p.d == AliasEnd(s)
    ensures FindAliases(s, false) == [DeclaredBy(s, p)] + FindAliases(s[AliasEnd(s)..], true)
  {
    hide AliasStart, AliasEnd, NameStart, NameEnd;
  }

  lemma {:induction false} AliasFindLater(s: string, inWord: bool)
    requires s != [] && (inWord || AliasStart(s) == 0)
    ensures FindAliases(s, inWord) == FindAliases(s[1..], IsWordChar(s[0]))
  {
    hide AliasStart, AliasEnd, NameStart, NameEnd;
  }

  /** Every alias that is found is declared in the text, for the table that goes with it. */
  lemma {:induction false} FoundIsDeclared(s: string, inWord: bool, i: nat) returns (p: Spot)
    requires i < |FindAliases(s, inWord)|
    ensures DeclaredAt(s, inWord, p) && FindAliases(s, inWord)[i] == DeclaredBy(s, p)
    decreases |s|
  {
    hide DeclaredAt, DeclaredBy, AliasStart, AliasEnd, NameStart, NameEnd, FindAliases, IsWordChar;
    if s == [] {
      NoAliases(inWord);
    } else if !inWord && AliasStart(s) > 0 {
      p := AliasHere(s);
      AliasFindHere(s, p);
      if i > 0 {
        var w := AliasEnd(s);
        var q := FoundIsDeclared(s[w..], true, i - 1);
        DeclaredShift(s, inWord, w, q);
        p := Moved(q, w);
      }
    } else {
      AliasFindLater(s, inWord);
      var q := FoundIsDeclared(s[1..], IsWordChar(s[0]), i);
      DeclaredShift(s, inWord, 1, q);
      p := Moved(q, 1);
    }
  }

  /** Every declaration of the text is found, unless its keyword was read as part of another. */
  lemma {:induction false} DeclaredIsFound(s: string, inWord: bool, p: Spot) returns (p0: Spot)
    requires DeclaredAt(s, inWord, p)
    ensures DeclaredAt(s, inWord, p0) && DeclaredBy(s, p0) in FindAliases(s, inWord)
    ensures DeclaredBy(s, p0) == DeclaredBy(s, p) || p0.k < p.k < p0.d
    decreases |s|
  {
    hide DeclaredAt, DeclaredBy, AliasStart, AliasEnd, NameStart, NameEnd, FindAliases, IsWordChar;
    if !inWord && AliasStart(s) > 0 {
      p0 := AliasHere(s);
      AliasFindHere(s, p0);
      if p.k == 0 {
        AliasThere(s, inWord, p);
        SameText(s, p, p0);
      } else if p.k >= p0.d {
        var w: int := p0.d;
        DeclaredUnshift(s, inWord, w, p);
        var q := DeclaredIsFound(s[w..], true, Moved(p, -w));
        DeclaredShift(s, inWord, w, q);
        DeclaredShift(s, inWord, w, Moved(p, -w));
        p0 := Moved(q, w);
      }
    } else {
      AliasFindLater(s, inWord);
      if p.k == 0 { AliasThere(s, inWord, p); }
      DeclaredUnshift(s, inWord, 1, p);
      var q := DeclaredIsFound(s[1..], IsWordChar(s[0]), Moved(p, -1));
      DeclaredShift(s, inWord, 1, q);
      DeclaredShift(s, inWord, 1, Moved(p, -1));
      p0 := Moved(q, 1);
    }
  }

  lemma SameText(s: string, p: Spot, q: Spot)
    requires 0 <= p.a <= p.b <= p.c <= p.d <= |s| && p.a == q.a && p.b == q.b && p.c == q.c && p.d == q.d
    ensures DeclaredBy(s, p) == DeclaredBy(s, q)
  {
  }
}
