/** The check made on generated SQL before it is run (backend/sql_intelligence.py). */
module SqlIntelligence {
  import opened Wrappers
  import opened Rounding
  import opened Text
  import opened Guardrails
  import opened SchemaText
  import opened SqlColumns
  import opened SqlTables

  /** `_strip_sql`: white space and Markdown fences go. */
  function FenceStrip(sql: string): string {
    Strip(Unfenced(sql))
  }

  // ---------------------------------------------------------------- validation

  datatype SqlError =
    | EmptySql | BlockedOperation | NotAQuery | UnbalancedParentheses | SeveralStatements
    | UnknownTable(name: string) | UnknownColumn(reference: string)

  function ErrorText(e: SqlError): string {
    match e
    case EmptySql => "SQL is empty."
    case BlockedOperation => "SQL contains a blocked write or DDL operation."
    case NotAQuery => "Only SELECT or WITH queries are allowed."
    case UnbalancedParentheses => "SQL has unbalanced parentheses."
    case SeveralStatements => "Multiple SQL statements are not allowed."
    case UnknownTable(name) => "Unknown table: " + name + "."
    case UnknownColumn(reference) => "Unknown column: " + reference + "."
  }

  datatype SqlWarning = UnresolvedColumn(reference: string) | ManyJoins | NoLimit

  datatype Status = Passed | Warning | Failed

  datatype Risk = Low | Medium | High

  datatype Report = Report(
    status: Status, errors: seq<SqlError>, warnings: seq<SqlWarning>, tables: seq<string>, columns: seq<string>,
    riskScore: real, risk: Risk)

  /** `^\s*(select|with)\b`, ignoring case. */
  predicate BeginsQuery(s: string) {
    var t := s[SpaceRun(s)..];
    (KeywordHere(t, "select") && (|t| > 6 ==> !IsWordChar(t[6])))
    || (KeywordHere(t, "with") && (|t| > 4 ==> !IsWordChar(t[4])))
  }

  predicate Known(table: string, schema: seq<Table>) {
    exists i :: 0 <= i < |schema| && Lower(schema[i].name) == Lower(table)
  }

  function FormErrors(sql: string): seq<SqlError> {
    (if sql == "" then [EmptySql] else [])
    + (if !IsSafeSql(sql) then [BlockedOperation] else [])
    + (if !BeginsQuery(sql) then [NotAQuery] else [])
    + (if CountChar(sql, '(') != CountChar(sql, ')') then [UnbalancedParentheses] else [])
    + (if Contains(StripTail(sql, ';'), ";") then [SeveralStatements] else [])
  }

  function TableErrors(tables: seq<string>, schema: seq<Table>): seq<SqlError> {
    if tables == [] then []
    else
      TableErrors(tables[..|tables| - 1], schema)
      + (if Known(tables[|tables| - 1], schema) then [] else [UnknownTable(tables[|tables| - 1])])
  }

  // ---------------------------------------------------------------- columns

  /** The last table of that name, in any case: a later one replaces an earlier one in the map. */
  function TableNamed(schema: seq<Table>, name: string): (t: Option<Table>)
    ensures t.Some? <==> Known(name, schema)
  {
    if schema == [] then None
    else if Lower(schema[|schema| - 1].name) == Lower(name) then Some(schema[|schema| - 1])
    else TableNamed(schema[..|schema| - 1], name)
  }

  predicate HasColumn(t: Table, column: string) {
    exists j :: 0 <= j < |t.columns| && Lower(t.columns[j].name) == Lower(column)
  }

  /** The index of the first dot, or the length of the text. */
  function Dot(reference: string): (n: nat)
    ensures n <= |reference|
    ensures (n < |reference| ==> reference[n] == '.') && forall i :: 0 <= i < n ==> reference[i] != '.'
  {
    if reference == "" || reference[0] == '.' then 0 else 1 + Dot(reference[1..])
  }

  predicate Qualified(reference: string) { Dot(reference) < |reference| }

  /** The table before the dot, through its alias if it is one. */
  function Owner(reference: string, aliases: map<string, string>): string {
    var name := reference[..Dot(reference)];
    if Lower(name) in aliases then aliases[Lower(name)] else name
  }

  /** A qualified reference to a column its table does not have; of a table nobody knows nothing is said. */
  predicate Missing(reference: string, aliases: map<string, string>, schema: seq<Table>) {
    && Qualified(reference)
    && var table := TableNamed(schema, Owner(reference, aliases));
       table.Some? && !HasColumn(table.value, reference[Dot(reference) + 1..])
  }

  /** A plain reference that no table has as a column. */
  predicate Unsure(reference: string, schema: seq<Table>) {
    && !Qualified(reference) && reference != "*"
    && forall i :: 0 <= i < |schema| ==> !HasColumn(schema[i], reference)
  }

  function ColumnErrors(columns: seq<string>, aliases: map<string, string>, schema: seq<Table>): seq<SqlError> {
    if columns == [] then []
    else
      var last := columns[|columns| - 1];
      ColumnErrors(columns[..|columns| - 1], aliases, schema)
      + (if Missing(last, aliases, schema) then [UnknownColumn(last)] else [])
  }

  function ColumnWarnings(columns: seq<string>, schema: seq<Table>): seq<SqlWarning> {
    if columns == [] then []
    else
      var last := columns[|columns| - 1];
      ColumnWarnings(columns[..|columns| - 1], schema) + (if Unsure(last, schema) then [UnresolvedColumn(last)] else [])
  }

  // ---------------------------------------------------------------- complexity and risk

  /** `w` begins the text and does not go on. */
  predicate WordHere(s: string, w: string) {
    |w| <= |s| && s[..|w|] == w && (|w| < |s| ==> !IsWordChar(s[|w|]))
  }

  /** `len(re.findall(r"\bw\b", s))`. */
  function CountWord(s: string, w: string, inWord: bool): nat
    decreases |s|
  {
    if s == [] then 0
    else (if !inWord && WordHere(s, w) then 1 else 0) + CountWord(s[1..], w, IsWordChar(s[0]))
  }

  /** `s.count(p)`. */
  function CountText(s: string, p: string): nat
    requires p != ""
  {
    if |s| < |p| then 0
    else if s[..|p|] == p then 1 + CountText(s[|p|..], p)
    else CountText(s[1..], p)
  }

  function Joins(sql: string): nat { CountWord(Lower(sql), "join", false) }

  function Subqueries(sql: string): nat { CountText(Lower(sql), "(select") }

  function SizeWarnings(sql: string): seq<SqlWarning> {
    (if Joins(sql) >= 4 then [ManyJoins] else []) + (if HasWord(Lower(sql), "limit") then [] else [NoLimit])
  }

  function RawRisk(errors: nat, warnings: nat, joins: nat, subqueries: nat): real {
    errors as real * 0.35 + warnings as real * 0.08 + joins as real * 0.06 + subqueries as real * 0.1
  }

  /** `query_risk_score`. */
  function RiskScore(errors: nat, warnings: nat, joins: nat, subqueries: nat): real {
    var score := RawRisk(errors, warnings, joins, subqueries);
    Round2(if score <= 1.0 then score else 1.0)
  }

  function RiskLevel(score: real): Risk {
    if score >= 0.65 then High else if score >= 0.3 then Medium else Low
  }

  // ---------------------------------------------------------------- the whole check

  function Errors(sql: string, schema: seq<Table>): seq<SqlError> {
    FormErrors(sql) + TableErrors(ExtractTables(sql), schema)
    + ColumnErrors(ReferencedColumns(sql), Aliases(sql), schema)
  }

  function Warnings(sql: string, schema: seq<Table>): seq<SqlWarning> {
    ColumnWarnings(ReferencedColumns(sql), schema) + SizeWarnings(sql)
  }

  function ReportFor(sql: string, errors: seq<SqlError>, warnings: seq<SqlWarning>): Report {
    var score := RiskScore(|errors|, |warnings|, Joins(sql), Subqueries(sql));
    Report(if errors != [] then Failed else if warnings != [] then Warning else Passed, errors, warnings,
           ExtractTables(sql), ReferencedColumns(sql), score, RiskLevel(score))
  }

  function Validate(rawSql: string, schema: string): Report {
    var sql, tables := FenceStrip(rawSql), ParseSchema(schema);
    ReportFor(sql, Errors(sql, tables), Warnings(sql, tables))
  }

  /** The checks on the form of the statement, in the order they are made. */
  method CheckForm(sql: string) returns (errors: seq<SqlError>)
    ensures errors == FormErrors(sql)
  {
    hide IsSafeSql, BeginsQuery, CountChar, Contains, StripTail;
    errors := [];
    if sql == "" { errors := errors + [EmptySql]; }
    if !IsSafeSql(sql) { errors := errors + [BlockedOperation]; }
    if !BeginsQuery(sql) { errors := errors + [NotAQuery]; }
    if CountChar(sql, '(') != CountChar(sql, ')') { errors := errors + [UnbalancedParentheses]; }
    if Contains(StripTail(sql, ';'), ";") { errors := errors + [SeveralStatements]; }
  }

  method CheckTables(tables: seq<string>, schema: seq<Table>) returns (errors: seq<SqlError>)
    ensures errors == TableErrors(tables, schema)
  {
    errors := [];
    for i := 0 to |tables|
      invariant errors == TableErrors(tables[..i], schema)
    {
      assert tables[..i + 1][..i] == tables[..i];
      if !Known(tables[i], schema) { errors := errors + [UnknownTable(tables[i])]; }
    }
    assert tables[..|tables|] == tables;
  }

  /** The loop over the references: what is missing from its table, and what no table has. */
  method ResolveColumns(columns: seq<string>, aliases: map<string, string>, schema: seq<Table>)
    returns (errors: seq<SqlError>, warnings: seq<SqlWarning>)
    ensures errors == ColumnErrors(columns, aliases, schema) && warnings == ColumnWarnings(columns, schema)
  {
    hide Missing, Unsure;
    errors, warnings := [], [];
    for i := 0 to |columns|
      invariant errors == ColumnErrors(columns[..i], aliases, schema)
      invariant warnings == ColumnWarnings(columns[..i], schema)
    {
      assert columns[..i + 1][..i] == columns[..i];
      if Missing(columns[i], aliases, schema) { errors := errors + [UnknownColumn(columns[i])]; }
      if Unsure(columns[i], schema) { warnings := warnings + [UnresolvedColumn(columns[i])]; }
    }
    assert columns[..|columns|] == columns;
  }

  /** `validate_sql_against_schema`. */
  method ValidateSqlAgainstSchema(rawSql: string, schema: string) returns (report: Report)
    ensures report == Validate(rawSql, schema)
  {
    hide FormErrors, TableErrors, ColumnErrors, ColumnWarnings, ParseSchema, FenceStrip, ExtractTables, Aliases, Joins;
    hide ReferencedColumns, HasWord;
    var sql := FenceStrip(rawSql);
    var schemaTables := ParseSchemaTables(schema);
    var errors := CheckForm(sql);
    var tables := ExtractTables(sql);
    var columns := ExtractReferencedColumns(sql);
    var aliases := ExtractAliases(sql);
    var missingTables := CheckTables(tables, schemaTables);
    var missingColumns, warnings := ResolveColumns(columns, aliases, schemaTables);
    errors := errors + missingTables + missingColumns;
    if Joins(sql) >= 4 { warnings := warnings + [ManyJoins]; }
    if !HasWord(Lower(sql), "limit") { warnings := warnings + [NoLimit]; }
    report := ReportFor(sql, errors, warnings);
  }

  // ---------------------------------------------------------------- what acceptance means

  /** Every semicolon has only semicolons after it. */
  ghost predicate SemicolonsAtTail(s: string) {
    forall i, j :: 0 <= i < j < |s| && s[i] == ';' ==> s[j] == ';'
  }

  /** The text begins, after white space, with a maximal word that is `select` or `with` in some case. */
  ghost predicate FirstWordQueries(s: string) {
    var t := s[SpaceRun(s)..];
    Lower(t[..WordLength(t)]) == "select" || Lower(t[..WordLength(t)]) == "with"
  }

  ghost predicate Acceptable(sql: string, schema: seq<Table>) {
    && sql != ""
    && (forall w :: w in Words(StripComments(Lower(sql))) ==> w !in BLOCKED)
    && FirstWordQueries(sql)
    && CountChar(sql, '(') == CountChar(sql, ')')
    && SemicolonsAtTail(sql)
    && (forall t :: t in ExtractTables(sql) ==> Known(t, schema))
    && (forall r :: r in ReferencedColumns(sql) ==> !Missing(r, Aliases(sql), schema))
  }

  lemma {:induction false} TailStripped(s: string, c: char) returns (k: nat)
    ensures k <= |s| && StripTail(s, c) == s[..k]
    ensures (forall i :: k <= i < |s| ==> s[i] == c) && (k > 0 ==> s[k - 1] != c)
  {
    if s != [] && s[|s| - 1] == c {
      k := TailStripped(s[..|s| - 1], c);
      assert s[..|s| - 1][..k] == s[..k];
      assert forall i :: k <= i < |s| - 1 ==> s[i] == s[..|s| - 1][i];
    } else {
      k := |s|;
    }
  }

  lemma {:induction false} SemicolonCheck(s: string)
    ensures !Contains(StripTail(s, ';'), ";") <==> SemicolonsAtTail(s)
  {
    var k := TailStripped(s, ';');
    var t := s[..k];
    assert forall i :: OccursAt(t, ";", i) <==> 0 <= i < k && s[i] == ';' by {
      forall i ensures OccursAt(t, ";", i) <==> 0 <= i < k && s[i] == ';' {
        if 0 <= i < k { assert t[i..i + 1] == [s[i]]; }
      }
    }
    assert SemicolonsAtTail(s) ==> forall i: int :: 0 <= i && i + 1 < k && s[i] == ';' ==> s[k - 1] == ';';
  }

  lemma {:induction false} KeywordIsWord(t: string, w: string)
    requires IsWord(w)
    ensures KeywordHere(t, w) && (|t| > |w| ==> !IsWordChar(t[|w|])) <==> Lower(t[..WordLength(t)]) == w
  {
    var n := WordLength(t);
    if |w| <= |t| && Lower(t[..|w|]) == w {
      forall i | 0 <= i < |w| ensures IsWordChar(t[i]) {
        assert LowerChar(t[i]) == w[i];
      }
      assert |w| <= n;
    }
  }

  lemma QueryCheck(s: string)
    ensures BeginsQuery(s) <==> FirstWordQueries(s)
  {
    var t := s[SpaceRun(s)..];
    KeywordIsWord(t, "select");
    KeywordIsWord(t, "with");
  }

  lemma {:induction false} TableCheck(tables: seq<string>, schema: seq<Table>)
    ensures TableErrors(tables, schema) == [] <==> forall t :: t in tables ==> Known(t, schema)
  {
    if tables != [] {
      TableCheck(tables[..|tables| - 1], schema);
      assert tables == tables[..|tables| - 1] + [tables[|tables| - 1]];
    }
  }

  lemma {:induction false} FormCheck(sql: string)
    ensures FormErrors(sql) == [] <==>
      sql != "" && IsSafeSql(sql) && BeginsQuery(sql) && CountChar(sql, '(') == CountChar(sql, ')')
      && !Contains(StripTail(sql, ';'), ";")
  {
    hide IsSafeSql, BeginsQuery, CountChar, Contains, StripTail;
  }

  lemma {:induction false} ColumnCheck(columns: seq<string>, aliases: map<string, string>, schema: seq<Table>)
    ensures ColumnErrors(columns, aliases, schema) == [] <==> forall r :: r in columns ==> !Missing(r, aliases, schema)
  {
    hide Missing;
    if columns != [] {
      ColumnCheck(columns[..|columns| - 1], aliases, schema);
      assert columns == columns[..|columns| - 1] + [columns[|columns| - 1]];
    }
  }

  lemma {:induction false} WarningCheck(columns: seq<string>, schema: seq<Table>)
    ensures ColumnWarnings(columns, schema) == [] <==> forall r :: r in columns ==> !Unsure(r, schema)
  {
    hide Unsure;
    if columns != [] {
      WarningCheck(columns[..|columns| - 1], schema);
      assert columns == columns[..|columns| - 1] + [columns[|columns| - 1]];
    }
  }

  /** The check accepts exactly the acceptable SQL. */
  lemma AcceptedIff(sql: string, schema: string)
    ensures Validate(sql, schema).status != Failed <==> Acceptable(FenceStrip(sql), ParseSchema(schema))
  {
    var s, tables := FenceStrip(sql), ParseSchema(schema);
    FormCheck(s);
    SafeIffNoBlockedWord(s);
    QueryCheck(s);
    SemicolonCheck(s);
    TableCheck(ExtractTables(s), tables);
    ColumnCheck(ReferencedColumns(s), Aliases(s), tables);
    hide FormErrors, IsSafeSql, BeginsQuery, CountChar, FenceStrip, ParseSchema, ExtractTables, FirstWordQueries;
    hide Contains, StripTail, SemicolonsAtTail, TableErrors, ColumnErrors, ReferencedColumns, Aliases, Missing, Known;
  }

  lemma HereStarts(s: string, w: string)
    requires IsWord(w) && WordHere(s, w)
    ensures s != [] && IsWordChar(s[0])
  {
    assert s[..|w|][0] == s[0];
  }

  /** How often a word stands in a text is how often it is among its maximal words. */
  lemma {:induction false} CountIsWords(s: string, w: string)
    requires IsWord(w)
    ensures CountWord(s, w, false) == multiset(Words(s))[w]
  {
    if s != [] {
      var n := WordLength(s);
      if n == 0 {
        CountIsWords(s[1..], w);
        if WordHere(s, w) { HereStarts(s, w); }
      } else {
        WordHereIff(s, w);
        CountInside(s[1..], w);
        assert s[1..][n - 1..] == s[n..];
        CountIsWords(s[n..], w);
      }
    }
  }

  lemma {:induction false} WordHereIff(s: string, w: string)
    requires IsWord(w)
    ensures WordHere(s, w) <==> s[..WordLength(s)] == w
  {
    if WordHere(s, w) {
      assert forall i :: 0 <= i < |w| ==> s[i] == w[i];
      assert WordLength(s) >= |w|;
    }
  }

  /** No word begins inside another. */
  lemma {:induction false} CountInside(s: string, w: string)
    requires IsWord(w)
    ensures CountWord(s, w, true) == CountWord(s[WordLength(s)..], w, false)
  {
    if s != [] && IsWordChar(s[0]) {
      CountInside(s[1..], w);
      assert s[1..][WordLength(s[1..])..] == s[WordLength(s)..];
    } else if s != [] {
      assert s[0..] == s;
      if WordHere(s, w) { HereStarts(s, w); }
    }
  }

  lemma SizeCheck(s: string)
    ensures SizeWarnings(s) == [] <==> multiset(Words(Lower(s)))["join"] <= 3 && "limit" in Words(Lower(s))
    ensures SizeWarnings(s) == [] ==> Joins(s) <= 3
  {
    CountIsWords(Lower(s), "join");
    FoundIffMaximal(Lower(s), "limit");
    hide Words, CountWord, HasWord;
  }

  lemma StatusFollows(sql: string, errors: seq<SqlError>, warnings: seq<SqlWarning>)
    ensures var report := ReportFor(sql, errors, warnings);
      && (report.status != Failed <==> errors == [])
      && (report.status == Passed <==> errors == [] && warnings == [])
  {
    hide RiskScore, Joins, Subqueries, ExtractTables, ReferencedColumns;
  }

  /** SQL passes without a warning exactly if it is acceptable, every plain column it selects belongs to some table,
      it has at most three joins and it has a limit. */
  lemma PassedIff(sql: string, schema: string)
    ensures var s, tables := FenceStrip(sql), ParseSchema(schema);
      Validate(sql, schema).status == Passed
      <==> (Acceptable(s, tables) && (forall r :: r in ReferencedColumns(s) ==> !Unsure(r, tables))
            && multiset(Words(Lower(s)))["join"] <= 3 && "limit" in Words(Lower(s)))
  {
    var s, tables := FenceStrip(sql), ParseSchema(schema);
    AcceptedIff(sql, schema);
    WarningCheck(ReferencedColumns(s), tables);
    SizeCheck(s);
    StatusFollows(s, Errors(s, tables), Warnings(s, tables));
    hide Acceptable, FenceStrip, ParseSchema, ReferencedColumns, Unsure, ColumnWarnings, Words, SizeWarnings, Errors;
    hide ReportFor, Lower;
  }

  /** The risk score lies in [0, 1]. An error makes it at least medium, two make it high; without errors and warnings
      only joins and subqueries count. */
  lemma RiskFollows(sql: string, schema: string)
    ensures var report := Validate(sql, schema);
      && 0.0 <= report.riskScore <= 1.0
      && (report.errors != [] ==> report.risk != Low) && (|report.errors| >= 2 ==> report.risk == High)
      && (report.status == Passed && Subqueries(FenceStrip(sql)) <= 1 ==> report.risk == Low)
  {
    var s, tables := FenceStrip(sql), ParseSchema(schema);
    var errors, warnings := Errors(s, tables), Warnings(s, tables);
    hide FenceStrip, ParseSchema, ReferencedColumns, Errors, ColumnWarnings, Words, Lower, ExtractTables;
    RiskBounds(|errors|, |warnings|, Joins(s), Subqueries(s));
    StatusFollows(s, errors, warnings);
    SizeCheck(s);
    hide RiskScore, Joins, Subqueries, SizeWarnings;
  }

  lemma RiskBounds(errors: nat, warnings: nat, joins: nat, subqueries: nat)
    ensures var score := RiskScore(errors, warnings, joins, subqueries);
      && 0.0 <= score <= 1.0
      && (errors >= 1 ==> score >= 0.35) && (errors >= 2 ==> score >= 0.7)
      && (errors == 0 && warnings == 0 && joins <= 3 && subqueries <= 1 ==> score <= 0.28)
  {
    var raw := RawRisk(errors, warnings, joins, subqueries);
    var capped := if raw <= 1.0 then raw else 1.0;
    Round2Monotone(0.0, capped);
    Round2Monotone(capped, 1.0);
    Round2Exact(0);
    Round2Exact(28);
    Round2Exact(35);
    Round2Exact(70);
    Round2Exact(100);
    if errors >= 2 { Round2Monotone(0.7, capped); } else if errors == 1 { Round2Monotone(0.35, capped); }
    if raw <= 0.28 { Round2Monotone(capped, 0.28); }
    hide Round2;
  }

  /** The check knows exactly the tables of the database whose printed schema it is given, whatever their case. */
  lemma PrintedTablesKnown(tables: seq<Table>, name: string)
    requires GoodTables(tables)
    ensures Known(name, ParseSchema(PrintSchema(tables)))
      <==> exists i :: 0 <= i < |tables| && Lower(tables[i].name) == Lower(name)
  {
    PrintThenParse(tables);
    hide ParseSchema, PrintSchema, GoodTables, Recovered;
    assert forall i :: 0 <= i < |tables| ==> RecoveredTables(tables)[i].name == tables[i].name;
  }
}
