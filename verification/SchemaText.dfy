/** The schema text a connector prints (backend/connectors.py) and the parser that reads it back (semantic.py). */
module SchemaText {
  import opened Wrappers
  import opened Text

  datatype Column = Column(name: string, dtype: string)
  datatype Table = Table(name: string, columns: seq<Column>)

  // ---------------------------------------------------------------- printing

  function PrintColumn(c: Column): string {
    c.name + " (" + c.dtype + ")"
  }

  function PrintColumns(columns: seq<Column>): (parts: seq<string>)
    ensures |parts| == |columns|
  {
    seq(|columns|, i requires 0 <= i < |columns| => PrintColumn(columns[i]))
  }

  function PrintTable(t: Table): string {
    "Table: " + t.name + "\n" + Join(", ", PrintColumns(t.columns))
  }

  function PrintTables(tables: seq<Table>): (parts: seq<string>)
    ensures |parts| == |tables|
  {
    seq(|tables|, i requires 0 <= i < |tables| => PrintTable(tables[i]))
  }

  function PrintSchema(tables: seq<Table>): string {
    Join("\n\n", PrintTables(tables))
  }

  /** The formatting loop of `inspect_schema`. */
  method FormatSchema(tables: seq<Table>) returns (text: string)
    ensures text == PrintSchema(tables)
  {
    var formatted := [];
    for i := 0 to |tables|
      invariant formatted == PrintTables(tables)[..i]
    {
      formatted := formatted + ["Table: " + tables[i].name + "\n" + Join(", ", PrintColumns(tables[i].columns))];
    }
    assert PrintTables(tables)[..|tables|] == PrintTables(tables);
    text := Join("\n\n", formatted);
  }

  // ---------------------------------------------------------------- parsing

  function SpaceRun(s: string): (n: nat)
    ensures n <= |s|
    ensures n < |s| ==> !IsSpace(s[n])
  {
    if s != [] && IsSpace(s[0]) then 1 + SpaceRun(s[1..]) else 0
  }

  /** One past the last newline among the first `n` characters, or 0. */
  function PastLastNewline(s: string, n: nat): (k: nat)
    requires n <= |s|
    ensures k <= n
  {
    if n == 0 then 0 else if s[n - 1] == '\n' then n else PastLastNewline(s, n - 1)
  }

  /** The length of the match of newline, white space, newline at the start of the text, or 0. */
  function SeparatorLength(s: string): (n: nat)
    ensures n <= |s|
  {
    if s == [] || s[0] != '\n' then 0
    else
      var k := PastLastNewline(s[1..], SpaceRun(s[1..]));
      if k == 0 then 0 else k + 1
  }

  /** `re.split` on blank lines; `block` is what has been read of the current piece. */
  function SplitBlocks(s: string, block: string): seq<string>
    decreases |s|
  {
    if s == [] then [block]
    else if SeparatorLength(s) > 0 then [block] + SplitBlocks(s[SeparatorLength(s)..], "")
    else SplitBlocks(s[1..], block + [s[0]])
  }

  /** The stripped lines of a block that are not blank. (Where Python takes a carriage return and a newline as one
      break, this takes two with a blank line between; blank lines are dropped.) */
  function Lines(s: string, line: string): seq<string>
    decreases |s|
  {
    if s == [] then if Strip(line) == "" then [] else [Strip(line)]
    else if IsLineBreak(s[0]) then (if Strip(line) == "" then [] else [Strip(line)]) + Lines(s[1..], "")
    else Lines(s[1..], line + [s[0]])
  }

  /** The length of the run of characters other than comma and parentheses. */
  function NameRun(s: string): (n: nat)
    ensures n <= |s|
    ensures forall i :: 0 <= i < n ==> s[i] != ',' && s[i] != '(' && s[i] != ')'
    ensures n < |s| ==> s[n] == ',' || s[n] == '(' || s[n] == ')'
  {
    if s != [] && s[0] != ',' && s[0] != '(' && s[0] != ')' then 1 + NameRun(s[1..]) else 0
  }

  /** The length of the run of characters other than the closing parenthesis. */
  function TypeRun(s: string): (n: nat)
    ensures n <= |s|
    ensures forall i :: 0 <= i < n ==> s[i] != ')'
    ensures n < |s| ==> s[n] == ')'
  {
    if s != [] && s[0] != ')' then 1 + TypeRun(s[1..]) else 0
  }

  /** A column begins here: a name run, an opening parenthesis, a type run, a closing one. */
  predicate ColumnHere(s: string) {
    var n := NameRun(s);
    && 0 < n < |s| && s[n] == '('
    && var m := TypeRun(s[n + 1..]); 0 < m && n + 1 + m < |s|
  }

  function ColumnLength(s: string): (n: nat)
    requires ColumnHere(s)
    ensures 0 < n <= |s|
  {
    NameRun(s) + TypeRun(s[NameRun(s) + 1..]) + 2
  }

  function ColumnAt(s: string): Column
    requires ColumnHere(s)
  {
    var n := NameRun(s);
    Column(Strip(s[..n]), Strip(s[n + 1..ColumnLength(s) - 1]))
  }

  /** `re.findall`: leftmost columns, one after the other. */
  function FindColumns(s: string): seq<Column> {
    if s == [] then []
    else if ColumnHere(s) then [ColumnAt(s)] + FindColumns(s[ColumnLength(s)..])
    else FindColumns(s[1..])
  }

  /** The text after the first colon. */
  function AfterColon(s: string): string {
    if s == [] then [] else if s[0] == ':' then s[1..] else AfterColon(s[1..])
  }

  function ParseBlock(block: string): Option<Table> {
    var lines := Lines(block, "");
    if lines == [] || !StartsWith(Lower(lines[0]), "table:") then None
    else Some(Table(Strip(AfterColon(lines[0])), FindColumns(Join(" ", lines[1..]))))
  }

  function ParseBlocks(blocks: seq<string>): seq<Table> {
    if blocks == [] then []
    else
      var rest := ParseBlocks(blocks[..|blocks| - 1]);
      match ParseBlock(blocks[|blocks| - 1])
      case None => rest
      case Some(t) => rest + [t]
  }

  function ParseSchema(schema: string): seq<Table> {
    ParseBlocks(SplitBlocks(schema, ""))
  }

  /** `parse_schema_tables`. */
  method ParseSchemaTables(schema: string) returns (tables: seq<Table>)
    ensures tables == ParseSchema(schema)
  {
    tables := [];
    var blocks := SplitBlocks(schema, "");
    for i := 0 to |blocks|
      invariant tables == ParseBlocks(blocks[..i])
    {
      ParseSnoc(blocks[..i], blocks[i]);
      assert blocks[..i + 1] == blocks[..i] + [blocks[i]];
      var lines := Lines(blocks[i], "");
      if lines == [] || !StartsWith(Lower(lines[0]), "table:") { continue; }
      var found := FindColumns(Join(" ", lines[1..]));
      var columns := [];
      for j := 0 to |found|
        invariant columns == found[..j]
      {
        columns := columns + [found[j]];
      }
      assert found[..|found|] == found;
      tables := tables + [Table(Strip(AfterColon(lines[0])), columns)];
    }
    assert blocks[..|blocks|] == blocks;
  }

  lemma {:induction false} ParseSnoc(blocks: seq<string>, last: string)
    ensures ParseBlocks(blocks + [last])
         == ParseBlocks(blocks) + (match ParseBlock(last) case None => [] case Some(t) => [t])
  {
    assert (blocks + [last])[..|blocks|] == blocks;
  }

  // ---------------------------------------------------------------- what the round trip keeps

  predicate OneLine(s: string) {
    forall i :: 0 <= i < |s| ==> !IsLineBreak(s[i])
  }

  predicate GoodName(s: string) {
    s != "" && Trimmed(s) && OneLine(s)
  }

  predicate GoodColumnName(s: string) {
    GoodName(s) && forall i :: 0 <= i < |s| ==> s[i] != ',' && s[i] != '(' && s[i] != ')'
  }

  predicate NoClose(s: string) {
    forall i :: 0 <= i < |s| ==> s[i] != ')'
  }

  /** A type without its closing parenthesis, if it ends in one. */
  function TypeBody(dtype: string): string {
    if dtype != "" && dtype[|dtype| - 1] == ')' then dtype[..|dtype| - 1] else dtype
  }

  /** No type at all, or a trimmed one with no closing parenthesis except perhaps the last character. */
  predicate GoodType(s: string) {
    s == "" || (GoodName(TypeBody(s)) && NoClose(TypeBody(s)))
  }

  predicate GoodTable(t: Table) {
    GoodName(t.name)
    && forall i :: 0 <= i < |t.columns| ==> GoodColumnName(t.columns[i].name) && GoodType(t.columns[i].dtype)
  }

  predicate GoodTables(tables: seq<Table>) {
    forall i :: 0 <= i < |tables| ==> GoodTable(tables[i])
  }

  /** What the parser recovers of a column list: typeless columns are lost, and a type loses its last
      parenthesis. */
  function Recovered(columns: seq<Column>): seq<Column> {
    if columns == [] then []
    else
      (if columns[0].dtype == "" then [] else [Column(columns[0].name, TypeBody(columns[0].dtype))])
      + Recovered(columns[1..])
  }

  function RecoveredTables(tables: seq<Table>): (r: seq<Table>)
    ensures |r| == |tables|
  {
    seq(|tables|, i requires 0 <= i < |tables| => Table(tables[i].name, Recovered(tables[i].columns)))
  }

  // ---------------------------------------------------------------- columns

  lemma {:induction false} NameRunOver(run: string, tail: string)
    requires forall i :: 0 <= i < |run| ==> run[i] != ',' && run[i] != '(' && run[i] != ')'
    requires tail != "" && (tail[0] == ',' || tail[0] == '(' || tail[0] == ')')
    ensures NameRun(run + tail) == |run|
  {
    if run == [] {
      assert run + tail == tail;
    } else {
      NameRunOver(run[1..], tail);
      assert (run + tail)[1..] == run[1..] + tail;
    }
  }

  lemma {:induction false} TypeRunOver(body: string, tail: string)
    requires NoClose(body) && tail != "" && tail[0] == ')'
    ensures TypeRun(body + tail) == |body|
  {
    if body == [] {
      assert body + tail == tail;
    } else {
      TypeRunOver(body[1..], tail);
      assert (body + tail)[1..] == body[1..] + tail;
    }
  }

  /** Text in front of an empty pair of parentheses yields no column. */
  lemma {:induction false} TypelessSkipped(run: string, tail: string)
    requires forall i :: 0 <= i < |run| ==> run[i] != ',' && run[i] != '(' && run[i] != ')'
    ensures FindColumns(run + "()" + tail) == FindColumns(tail)
  {
    var s := run + "()" + tail;
    assert s == run + ("()" + tail);
    NameRunOver(run, "()" + tail);
    hide NameRun, TypeRun;
    assert !ColumnHere(s) by {
      assert s[|run| + 1..] == ")" + tail;
      assert TypeRun(")" + tail) == 0 by { EmptyType(tail); }
    }
    hide ColumnHere;
    if run == [] {
      EmptySkipped(tail);
      assert s == "()" + tail;
    } else {
      TypelessSkipped(run[1..], tail);
      assert s[1..] == run[1..] + "()" + tail;
    }
  }

  lemma {:induction false} EmptyType(tail: string)
    ensures TypeRun(")" + tail) == 0
  {
  }

  lemma {:induction false} EmptySkipped(tail: string)
    ensures FindColumns("()" + tail) == FindColumns(tail)
  {
    var s, t := "()" + tail, ")" + tail;
    assert NameRun(s) == 0 && NameRun(t) == 0;
    assert s[1..] == t && t[1..] == tail;
  }

  lemma {:induction false} ColumnStep(s: string, n: nat, m: nat)
    requires 0 < n < |s| && NameRun(s) == n && s[n] == '('
    requires TypeRun(s[n + 1..]) == m && 0 < m && n + 1 + m < |s|
    ensures FindColumns(s) == [Column(Strip(s[..n]), Strip(s[n + 1..n + 1 + m]))] + FindColumns(s[n + m + 2..])
  {
    hide NameRun, TypeRun, Strip, ColumnHere, ColumnAt, ColumnLength;
    ColumnShape(s, n, m);
  }

  lemma {:induction false} ColumnShape(s: string, n: nat, m: nat)
    requires 0 < n < |s| && NameRun(s) == n && s[n] == '('
    requires TypeRun(s[n + 1..]) == m && 0 < m && n + 1 + m < |s|
    ensures ColumnHere(s) && ColumnLength(s) == n + m + 2
    ensures ColumnAt(s) == Column(Strip(s[..n]), Strip(s[n + 1..n + 1 + m]))
  {
    hide NameRun, TypeRun, Strip;
  }

  lemma NoColumns()
    ensures FindColumns("") == [] && Recovered([]) == []
  {
  }

  lemma {:induction false} SkipOne(s: string)
    requires s != "" && NameRun(s) == 0
    ensures FindColumns(s) == FindColumns(s[1..])
  {
  }

  lemma TypedParts(run: string, body: string, tail: string)
    ensures var s := run + "(" + body + ")" + tail;
      && |s| == |run| + |body| + |tail| + 2 && s[|run|] == '('
      && s == run + ("(" + body + ")" + tail)
      && s[..|run|] == run && s[|run| + 1..] == body + (")" + tail)
      && s[|run| + 1..|run| + 1 + |body|] == body && s[|run| + |body| + 2..] == tail
  {
    var s := run + "(" + body + ")" + tail;
    assert s == run + ("(" + body + ")" + tail);
    assert s[|run| + 1..] == body + (")" + tail);
    assert s[|run| + |body| + 2..] == tail;
  }

  lemma {:induction false} TypedFound(run: string, body: string, tail: string)
    requires run != "" && forall i :: 0 <= i < |run| ==> run[i] != ',' && run[i] != '(' && run[i] != ')'
    requires body != "" && NoClose(body)
    ensures FindColumns(run + "(" + body + ")" + tail) == [Column(Strip(run), Strip(body))] + FindColumns(tail)
  {
    hide FindColumns, Strip, NameRun, TypeRun;
    var s := run + "(" + body + ")" + tail;
    TypedParts(run, body, tail);
    NameRunOver(run, "(" + body + ")" + tail);
    TypeRunOver(body, ")" + tail);
    ColumnStep(s, |run|, |body|);
  }

  lemma StripPadded(lead: string, name: string)
    requires AllSpace(lead) && name != "" && Trimmed(name)
    ensures Strip(lead + name + " ") == name
  {
    assert lead + name + " " == lead + (name + " ");
    StripLeftOver(lead, name + " ");
    assert (name + " ")[..|name|] == name;
    assert StripRight(name + " ") == StripRight(name);
  }

  lemma {:induction false} StripLeftOver(lead: string, s: string)
    requires AllSpace(lead) && s != "" && !IsSpace(s[0])
    ensures StripLeft(lead + s) == s
  {
    if lead == [] {
      assert lead + s == s;
    } else {
      StripLeftOver(lead[1..], s);
      assert (lead + s)[1..] == lead[1..] + s;
    }
  }

  lemma RecoveredOne(c: Column)
    ensures Recovered([c]) == if c.dtype == "" then [] else [Column(c.name, TypeBody(c.dtype))]
  {
    assert [c][1..] == [];
  }

  lemma {:induction false} TypedColumnFound(lead: string, c: Column, tail: string)
    requires lead == "" || lead == " "
    requires GoodColumnName(c.name) && GoodType(c.dtype) && c.dtype != ""
    ensures FindColumns(lead + PrintColumn(c) + tail) == [Column(c.name, TypeBody(c.dtype))] + FindColumns(tail)
  {
    hide FindColumns, Strip, NameRun;
    var run, body := lead + c.name + " ", TypeBody(c.dtype);
    var after := (if c.dtype == body then "" else ")") + tail;
    assert lead + PrintColumn(c) + tail == run + "(" + body + ")" + after;
    TypedFound(run, body, after);
    StripPadded(lead, c.name);
    StripTrimmed(body);
    if c.dtype != body {
      assert after[1..] == tail;
      SkipClosing(after);
    } else {
      assert after == tail;
    }
  }

  lemma {:induction false} SkipClosing(s: string)
    requires s != "" && s[0] == ')'
    ensures FindColumns(s) == FindColumns(s[1..])
  {
    hide FindColumns;
    SkipOne(s);
  }

  /** One printed column, with what precedes it since the last comma, in front of the rest of the list. */
  lemma {:induction false} ColumnFound(lead: string, c: Column, tail: string)
    requires lead == "" || lead == " "
    requires GoodColumnName(c.name) && GoodType(c.dtype)
    ensures FindColumns(lead + PrintColumn(c) + tail) == Recovered([c]) + FindColumns(tail)
  {
    RecoveredOne(c);
    hide FindColumns, Recovered;
    if c.dtype == "" {
      assert lead + PrintColumn(c) + tail == lead + c.name + " " + "()" + tail;
      TypelessSkipped(lead + c.name + " ", tail);
    } else {
      TypedColumnFound(lead, c, tail);
    }
  }

  lemma {:induction false} JoinSteps(separator: string, parts: seq<string>)
    requires parts != []
    ensures Join(separator, parts)
         == if |parts| == 1 then parts[0] else parts[0] + separator + Join(separator, parts[1..])
  {
  }

  lemma {:induction false} RecoveredSteps(c: Column, rest: seq<Column>)
    ensures Recovered([c] + rest) == Recovered([c]) + Recovered(rest)
  {
    assert [c][1..] == [] && ([c] + rest)[1..] == rest;
  }

  lemma {:induction false} CommaSkipped(text: string)
    ensures FindColumns(", " + text) == FindColumns(" " + text)
  {
    hide FindColumns;
    SkipOne(", " + text);
    assert (", " + text)[1..] == " " + text;
  }

  lemma {:induction false} ColumnsFound(lead: string, columns: seq<Column>)
    requires lead == "" || lead == " "
    requires forall i :: 0 <= i < |columns| ==> GoodColumnName(columns[i].name) && GoodType(columns[i].dtype)
    ensures columns != [] ==> FindColumns(lead + Join(", ", PrintColumns(columns))) == Recovered(columns)
    decreases |columns|
  {
    hide FindColumns, Join, Recovered, GoodColumnName, GoodType, PrintColumn, NameRun;
    if columns != [] {
      var c, rest := columns[0], columns[1..];
      var parts := PrintColumns(columns);
      assert parts[1..] == PrintColumns(rest);
      assert columns == [c] + rest;
      RecoveredSteps(c, rest);
      JoinSteps(", ", parts);
      if rest == [] {
        ColumnFound(lead, c, "");
        assert lead + PrintColumn(c) == lead + PrintColumn(c) + "";
        NoColumns();
      } else {
        var tail := ", " + Join(", ", PrintColumns(rest));
        ColumnFound(lead, c, tail);
        assert lead + Join(", ", parts) == lead + PrintColumn(c) + tail;
        CommaSkipped(Join(", ", PrintColumns(rest)));
        ColumnsFound(" ", rest);
      }
    }
  }

  // ---------------------------------------------------------------- blocks

  lemma {:induction false} LinesOver(x: string, s: string, line: string)
    requires OneLine(x)
    ensures Lines(x + s, line) == Lines(s, line + x)
  {
    if x == [] {
      assert x + s == s && line + x == line;
    } else {
      LinesOver(x[1..], s, line + [x[0]]);
      assert (x + s)[1..] == x[1..] + s;
      assert line + [x[0]] + x[1..] == line + x;
    }
  }

  /** The lines of one or two printed lines. */
  lemma {:induction false} LinesOfTwo(a: string, b: string)
    requires GoodName(a) && (b == "" || GoodName(b))
    ensures Lines(a, "") == [a]
    ensures Lines(a + "\n" + b, "") == [a] + (if b == "" then [] else [b])
  {
    StripTrimmed(a);
    LinesOver(a, "", "");
    assert a + "" == a && "" + a == a;
    LinesOver(a, "\n" + b, "");
    assert a + "\n" + b == a + ("\n" + b);
    assert ("\n" + b)[1..] == b;
    LinesOver(b, "", "");
    assert b + "" == b && "" + b == b;
    StripTrimmed(b);
  }

  lemma {:induction false} JoinedOneLine(parts: seq<string>)
    requires forall i :: 0 <= i < |parts| ==> OneLine(parts[i])
    ensures OneLine(Join(", ", parts))
  {
    if |parts| > 1 {
      JoinedOneLine(parts[1..]);
    }
  }

  lemma {:induction false} JoinedEnds(parts: seq<string>)
    requires parts != [] && forall i :: 0 <= i < |parts| ==> parts[i] != "" && Trimmed(parts[i])
    ensures Join(", ", parts) != "" && Trimmed(Join(", ", parts))
  {
    if |parts| > 1 {
      JoinedEnds(parts[1..]);
      var j := Join(", ", parts[1..]);
      assert Join(", ", parts) == parts[0] + ", " + j;
      assert Join(", ", parts)[|Join(", ", parts)| - 1] == j[|j| - 1];
    }
  }

  lemma PrintedColumnGood(c: Column)
    requires GoodColumnName(c.name) && GoodType(c.dtype)
    ensures GoodName(PrintColumn(c))
  {
    var s := PrintColumn(c);
    assert s[0] == c.name[0] && s[|s| - 1] == ')';
    assert OneLine(c.dtype) by {
      if c.dtype != "" && c.dtype[|c.dtype| - 1] == ')' {
        assert c.dtype == TypeBody(c.dtype) + ")";
      }
    }
  }

  lemma PrintedColumnsGood(columns: seq<Column>)
    requires forall i :: 0 <= i < |columns| ==> GoodColumnName(columns[i].name) && GoodType(columns[i].dtype)
    ensures columns != [] ==> GoodName(Join(", ", PrintColumns(columns)))
  {
    forall i | 0 <= i < |columns| ensures GoodName(PrintColumns(columns)[i]) {
      PrintedColumnGood(columns[i]);
    }
    if columns != [] {
      JoinedOneLine(PrintColumns(columns));
      JoinedEnds(PrintColumns(columns));
    }
  }

  lemma {:induction false} HeaderGood(name: string)
    requires GoodName(name)
    ensures GoodName("Table: " + name)
    ensures StartsWith(Lower("Table: " + name), "table:")
    ensures Strip(AfterColon("Table: " + name)) == name
  {
    var h := "Table: " + name;
    assert h[|h| - 1] == name[|name| - 1];
    assert h[0] == 'T' && h[1] == 'a' && h[2] == 'b' && h[3] == 'l' && h[4] == 'e' && h[5] == ':';
    assert Lower(h)[..6] == "table:";
    AfterHeader(name);
    StripLeftOver(" ", name);
    assert name[..|name|] == name;
  }

  lemma {:induction false} AfterHeader(name: string)
    ensures AfterColon("Table: " + name) == " " + name
  {
    assert ("Table: " + name)[1..] == "able: " + name;
    assert ("able: " + name)[1..] == "ble: " + name;
    assert ("ble: " + name)[1..] == "le: " + name;
    assert ("le: " + name)[1..] == "e: " + name;
    assert ("e: " + name)[1..] == ": " + name;
    assert (": " + name)[1..] == " " + name;
    assert AfterColon("le: " + name) == AfterColon("e: " + name) == AfterColon(": " + name) == " " + name;
    assert AfterColon("able: " + name) == AfterColon("ble: " + name) == AfterColon("le: " + name);
  }

  /** A printed table parses back, also when the separator has eaten the newline of one without columns. */
  lemma BlockParsed(t: Table)
    requires GoodTable(t)
    ensures ParseBlock(PrintTable(t)) == Some(Table(t.name, Recovered(t.columns)))
    ensures t.columns == [] ==> ParseBlock("Table: " + t.name) == Some(Table(t.name, []))
  {
    var header, body := "Table: " + t.name, Join(", ", PrintColumns(t.columns));
    HeaderGood(t.name);
    PrintedColumnsGood(t.columns);
    LinesOfTwo(header, body);
    hide FindColumns, Recovered, GoodTable, Lines, PrintColumns;
    assert PrintTable(t) == header + "\n" + body;
    assert [header][1..] == [] && Join(" ", []) == "";
    if t.columns != [] {
      ColumnsFound("", t.columns);
      assert "" + body == body;
      assert ([header] + [body])[1..] == [body];
    }
  }

  // ---------------------------------------------------------------- splitting

  lemma {:induction false} SplitOver(x: string, s: string, block: string)
    requires forall i :: 0 <= i < |x| ==> x[i] != '\n'
    ensures SplitBlocks(x + s, block) == SplitBlocks(s, block + x)
  {
    if x == [] {
      assert x + s == s && block + x == block;
    } else {
      SplitOver(x[1..], s, block + [x[0]]);
      assert (x + s)[1..] == x[1..] + s;
      assert block + [x[0]] + x[1..] == block + x;
    }
  }

  /** A newline before text that starts with no white space separates nothing; two or three such newlines do. */
  lemma Separators(text: string)
    requires text == "" || !IsSpace(text[0])
    ensures SeparatorLength("\n" + text) == 0
    ensures SeparatorLength("\n\n" + text) == 2
    ensures SeparatorLength("\n\n\n" + text) == 3
  {
    assert ("\n" + text)[1..] == text;
    assert ("\n\n" + text)[1..] == "\n" + text;
    assert ("\n\n\n" + text)[1..] == "\n\n" + text;
    assert SpaceRun(text) == 0;
    assert SpaceRun("\n" + text) == 1;
    assert SpaceRun("\n\n" + text) == 2;
  }

  lemma NoParts()
    ensures Join(", ", PrintColumns([])) == ""
  {
  }

  lemma {:induction false} SplitHere(s: string, block: string, n: nat)
    requires 0 < n <= |s| && SeparatorLength(s) == n
    ensures SplitBlocks(s, block) == [block] + SplitBlocks(s[n..], "")
  {
  }

  lemma {:induction false} SplitLater(s: string, block: string)
    requires s != "" && SeparatorLength(s) == 0
    ensures SplitBlocks(s, block) == SplitBlocks(s[1..], block + [s[0]])
  {
  }

  /** One line, then three newlines: one block. */
  lemma {:induction false} LineThenRest(header: string, rest: string)
    requires (forall i :: 0 <= i < |header| ==> header[i] != '\n') && rest != "" && !IsSpace(rest[0])
    ensures SplitBlocks(header + ("\n\n\n" + rest), "") == [header] + SplitBlocks(rest, "")
  {
    hide SplitBlocks, SeparatorLength;
    assert "" + header == header;
    Separators(rest);
    SplitOver(header, "\n\n\n" + rest, "");
    SplitHere("\n\n\n" + rest, header, 3);
    assert ("\n\n\n" + rest)[3..] == rest;
  }

  /** Two lines, then two newlines: one block. */
  lemma {:induction false} LinesThenRest(header: string, body: string, rest: string)
    requires (forall i :: 0 <= i < |header| ==> header[i] != '\n') && rest != "" && !IsSpace(rest[0])
    requires (forall i :: 0 <= i < |body| ==> body[i] != '\n') && body != "" && !IsSpace(body[0])
    ensures SplitBlocks(header + ("\n" + (body + ("\n\n" + rest))), "")
         == [header + "\n" + body] + SplitBlocks(rest, "")
  {
    hide SplitBlocks, SeparatorLength;
    assert "" + header == header;
    Separators(rest);
    var after := body + ("\n\n" + rest);
    SplitOver(header, "\n" + after, "");
    assert after[0] == body[0];
    Separators(after);
    SplitLater("\n" + after, header);
    assert ("\n" + after)[1..] == after;
    SplitOver(body, "\n\n" + rest, header + "\n");
    SplitHere("\n\n" + rest, header + "\n" + body, 2);
    assert ("\n\n" + rest)[2..] == rest;
  }

  lemma PrintedLines(t: Table)
    requires GoodTable(t)
    ensures var header, body := "Table: " + t.name, Join(", ", PrintColumns(t.columns));
      (forall i :: 0 <= i < |header| ==> header[i] != '\n')
      && (t.columns != [] ==>
            (forall i :: 0 <= i < |body| ==> body[i] != '\n') && body != "" && !IsSpace(body[0]))
  {
    hide Join, PrintColumns, Lower, AfterColon, StartsWith, Strip;
    HeaderGood(t.name);
    PrintedColumnsGood(t.columns);
  }

  lemma {:induction false} TableThenRest(t: Table, rest: string)
    requires GoodTable(t) && rest != "" && !IsSpace(rest[0])
    ensures SplitBlocks(PrintTable(t) + "\n\n" + rest, "")
         == [if t.columns == [] then "Table: " + t.name else PrintTable(t)] + SplitBlocks(rest, "")
  {
    hide SplitBlocks, Join, PrintColumns, Lower, AfterColon, StartsWith, Strip;
    var header, body := "Table: " + t.name, Join(", ", PrintColumns(t.columns));
    PrintedLines(t);
    hide GoodTable;
    if t.columns == [] {
      NoParts();
      LineThenRest(header, rest);
      assert PrintTable(t) + "\n\n" + rest == header + ("\n\n\n" + rest);
    } else {
      LinesThenRest(header, body, rest);
      assert PrintTable(t) + "\n\n" + rest == header + ("\n" + (body + ("\n\n" + rest)));
    }
  }

  lemma TableAlone(t: Table)
    requires GoodTable(t)
    ensures SplitBlocks(PrintTable(t), "") == [PrintTable(t)]
  {
    var header, body := "Table: " + t.name, Join(", ", PrintColumns(t.columns));
    HeaderGood(t.name);
    PrintedColumnsGood(t.columns);
    assert PrintTable(t) == header + ("\n" + body);
    SplitOver(header, "\n" + body, "");
    assert "" + header == header;
    Separators(body);
    assert ("\n" + body)[1..] == body;
    SplitOver(body, "", header + "\n");
    assert body + "" == body;
    assert header + "\n" + body == PrintTable(t);
  }

  lemma {:induction false} ParseBlocksConcat(a: seq<string>, b: seq<string>)
    ensures ParseBlocks(a + b) == ParseBlocks(a) + ParseBlocks(b)
  {
    if b == [] {
      assert a + b == a;
    } else {
      hide ParseBlock, ParseBlocks;
      var front, last := b[..|b| - 1], b[|b| - 1];
      ParseBlocksConcat(a, front);
      ParseSnoc(front, last);
      ParseSnoc(a + front, last);
      assert b == front + [last] && a + b == (a + front) + [last];
    }
  }

  lemma ParseOne(block: string, t: Table)
    requires ParseBlock(block) == Some(t)
    ensures ParseBlocks([block]) == [t]
  {
    assert [block][..0] == [];
  }

  /** The round trip: parsing what was printed gives every table back in order with its columns in order, except
      for columns without a type and a final parenthesis of a type. */
  lemma {:induction false} PrintThenParse(tables: seq<Table>)
    requires GoodTables(tables)
    ensures ParseSchema(PrintSchema(tables)) == RecoveredTables(tables)
  {
    if tables == [] {
      assert ParseBlock("") == None;
      assert [""][..0] == [];
    } else {
      var t, rest := tables[0], tables[1..];
      assert PrintTables(tables)[1..] == PrintTables(rest);
      BlockParsed(t);
      assert RecoveredTables(tables) == [Table(t.name, Recovered(t.columns))] + RecoveredTables(rest);
      if rest == [] {
        TableAlone(t);
        ParseOne(PrintTable(t), Table(t.name, Recovered(t.columns)));
      } else {
        PrintThenParse(rest);
        assert PrintSchema(tables) == PrintTable(t) + "\n\n" + PrintSchema(rest);
        assert PrintSchema(rest)[0] == 'T';
        TableThenRest(t, PrintSchema(rest));
        var block := if t.columns == [] then "Table: " + t.name else PrintTable(t);
        ParseOne(block, Table(t.name, Recovered(t.columns)));
        ParseBlocksConcat([block], SplitBlocks(PrintSchema(rest), ""));
      }
    }
  }

  predicate PlainTypes(tables: seq<Table>) {
    forall i, j :: 0 <= i < |tables| && 0 <= j < |tables[i].columns| ==>
      tables[i].columns[j].dtype != "" && TypeBody(tables[i].columns[j].dtype) == tables[i].columns[j].dtype
  }

  lemma {:induction false} RecoveredSame(columns: seq<Column>)
    ensures |Recovered(columns)| <= |columns|
    ensures Recovered(columns) == columns
      <==> forall j :: 0 <= j < |columns| ==> columns[j].dtype != "" && TypeBody(columns[j].dtype) == columns[j].dtype
  {
    if columns != [] {
      RecoveredSame(columns[1..]);
      var c := columns[0];
      assert columns == [c] + columns[1..];
      if c.dtype != "" {
        assert Recovered(columns)[0] == Column(c.name, TypeBody(c.dtype));
        assert Recovered(columns)[1..] == Recovered(columns[1..]);
      }
    }
  }

  /** Printing and parsing undo each other exactly on the schemas whose columns all have a type and whose types do
      not end in a parenthesis. */
  lemma RoundTripExactly(tables: seq<Table>)
    requires GoodTables(tables)
    ensures ParseSchema(PrintSchema(tables)) == tables <==> PlainTypes(tables)
  {
    PrintThenParse(tables);
    forall i | 0 <= i < |tables|
      ensures RecoveredTables(tables)[i] == tables[i] <==> Recovered(tables[i].columns) == tables[i].columns
      ensures Recovered(tables[i].columns) == tables[i].columns
        <==> forall j :: 0 <= j < |tables[i].columns| ==>
               tables[i].columns[j].dtype != "" && TypeBody(tables[i].columns[j].dtype) == tables[i].columns[j].dtype
    {
      RecoveredSame(tables[i].columns);
    }
  }
}
