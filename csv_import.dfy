/*
 * The CSV import service of the MySQL container: the mapping of pandas
 * column types to MySQL column types, the cleaning of column and table
 * names, the SQL text generated for one CSV file (drop, create, batched
 * inserts, count), the run over the CSV directory and the polling loop's
 * bookkeeping of processed files.
 *
 * The parsed CSV file (its columns, their pandas dtypes and the cells) is an
 * input; the database is an oracle that accepts or rejects each file's
 * statements; the directory listing and the connection are inputs.
 */
module CsvImport {
  import opened Common

  // ---------------------------------------------------------------------
  // get_mysql_type
  // ---------------------------------------------------------------------

  /** The pandas dtypes the mapping distinguishes; an integer dtype carries its name ("int64", "int32", "uint8", ...). */
  datatype DType = Integer(name: string) | Floating | Boolean | DateTime | Object | OtherDType

  datatype SqlType = BigInt | Int | Decimal10_2 | BooleanType | DateTimeType | Varchar(size: nat) | TextType

  function SqlTypeText(t: SqlType): string {
    match t
    case BigInt => "BIGINT"
    case Int => "INT"
    case Decimal10_2 => "DECIMAL(10,2)"
    case BooleanType => "BOOLEAN"
    case DateTimeType => "DATETIME"
    case Varchar(n) => "VARCHAR(" + NatToString(n) + ")"
    case TextType => "TEXT"
  }

  /**
   * get_mysql_type(dtype, max_length).  A text column gets a VARCHAR at least
   * as wide as its positive length hint and never narrower than 10 nor wider
   * than 255, TEXT exactly when the hint exceeds 255, and VARCHAR(255) when
   * there is no positive hint.
   */
  function MySqlType(dtype: DType, maxLength: Option<int>): (t: SqlType)
    ensures dtype.Integer? ==> (t == BigInt <==> dtype.name == "int64") && (t == Int <==> dtype.name != "int64")
    ensures dtype.Floating? ==> t == Decimal10_2
    ensures dtype.Boolean? ==> t == BooleanType
    ensures dtype.DateTime? ==> t == DateTimeType
    ensures (dtype.Object? || dtype.OtherDType?) ==>
      (t.Varchar? || t.TextType?) &&
      (t.TextType? <==> maxLength.Some? && maxLength.value > 255) &&
      (t.Varchar? ==> 10 <= t.size <= 255) &&
      (t.Varchar? && maxLength.Some? && maxLength.value > 0 ==> t.size >= maxLength.value) &&
      (maxLength.None? || maxLength.value <= 0 ==> t == Varchar(255))
  {
    match dtype
    case Integer(name) => if name == "int64" then BigInt else Int
    case Floating => Decimal10_2
    case Boolean => BooleanType
    case DateTime => DateTimeType
    case _ =>
      if maxLength.Some? && maxLength.value > 0 then
        if maxLength.value <= 255 then Varchar(if maxLength.value < 10 then 10 else maxLength.value) else TextType
      else Varchar(255)
  }

  // ---------------------------------------------------------------------
  // Cells and the length hint of a column
  // ---------------------------------------------------------------------

  /** A cell of the frame: missing (NaN/None/NaT), a Python str, or another scalar with its str(). */
  datatype Cell = Missing | Text(s: string) | Scalar(repr: string)

  /** str(val) as astype(str) gives it. */
  function CellStr(c: Cell): string {
    match c
    case Missing => "nan"
    case Text(s) => s
    case Scalar(r) => r
  }

  predicate AllMissing(cells: seq<Cell>) {
    forall i :: 0 <= i < |cells| ==> cells[i].Missing?
  }

  /** df[col].astype(str).str.len().max() */
  function MaxLen(cells: seq<Cell>): (m: nat)
    ensures forall i :: 0 <= i < |cells| ==> |CellStr(cells[i])| <= m
    ensures cells != [] ==> exists i :: 0 <= i < |cells| && |CellStr(cells[i])| == m
  {
    if cells == [] then 0
    else
      var front := MaxLen(cells[..|cells| - 1]);
      var last := |CellStr(cells[|cells| - 1])|;
      assert forall i :: 0 <= i < |cells| - 1 ==> cells[..|cells| - 1][i] == cells[i];
      if last >= front then last else front
  }

  /** The max_len hint: text columns double their longest cell, capped at 1000 (10 when all cells are missing). */
  function LengthHint(dtype: DType, cells: seq<Cell>): (h: Option<int>)
    ensures dtype.Object? <==> h.Some?
    ensures h.Some? ==> 0 <= h.value <= 1000
    ensures h.Some? && AllMissing(cells) ==> h.value == 20
    ensures h.Some? && !AllMissing(cells) ==> forall i :: 0 <= i < |cells| ==> h.value >= |CellStr(cells[i])| || h.value == 1000
  {
    if !dtype.Object? then None
    else
      var m := if AllMissing(cells) then 10 else MaxLen(cells);
      Some(if m * 2 < 1000 then m * 2 else 1000)
  }

  // ---------------------------------------------------------------------
  // Column names
  // ---------------------------------------------------------------------

  predicate IdentChar(c: char) {
    IsAsciiAlnum(c) || c == '_'
  }

  /** re.sub(r'[^a-zA-Z0-9_]', '_', name) */
  function ReplaceOthers(name: string): (r: string)
    ensures |r| == |name|
    ensures forall i :: 0 <= i < |name| ==> r[i] == if IdentChar(name[i]) then name[i] else '_'
  {
    if name == [] then [] else [if IdentChar(name[0]) then name[0] else '_'] + ReplaceOthers(name[1..])
  }

  /** The two substitutions of the column names: foreign characters to '_', then 'col_' before a leading digit. */
  function CleanColumnName(name: string): string {
    var t := ReplaceOthers(name);
    if t != [] && IsAsciiDigit(t[0]) then "col_" + t else t
  }

  /**
   * A cleaned column name is made of letters, digits and underscores, does
   * not start with a digit, keeps every such character of the original in
   * place, and cleaning it again changes nothing.
   */
  lemma ColumnNameClean(name: string)
    ensures var c := CleanColumnName(name);
      (forall i :: 0 <= i < |c| ==> IdentChar(c[i])) &&
      (c != [] ==> !IsAsciiDigit(c[0])) &&
      |c| == |name| + (if name != [] && IsAsciiDigit(name[0]) then 4 else 0) &&
      (forall i :: 0 <= i < |name| && IdentChar(name[i]) ==> c[|c| - |name| + i] == name[i]) &&
      CleanColumnName(c) == c
  {
    var t := ReplaceOthers(name);
    var c := CleanColumnName(name);
    assert forall i :: 0 <= i < |c| ==> IdentChar(c[i]);
    assert ReplaceOthers(c) == c;
  }

  // ---------------------------------------------------------------------
  // Table names
  // ---------------------------------------------------------------------

  /** The position of the last '.', or -1. */
  function LastDot(p: string): (r: int)
    ensures -1 <= r < |p|
    ensures r >= 0 ==> p[r] == '.'
    ensures forall k :: r < k < |p| ==> p[k] != '.'
  {
    if p == [] then -1
    else if p[|p| - 1] == '.' then |p| - 1
    else LastDot(p[..|p| - 1])
  }

  /** os.path.splitext(name)[0] for a name without a directory: leading dots do not start an extension. */
  function SplitExtRoot(p: string): string {
    var dot := LastDot(p);
    if dot < 0 || forall k :: 0 <= k < dot ==> p[k] == '.' then p else p[..dot]
  }

  /** .replace('-', '_').replace(' ', '_') */
  function Underscored(s: string): (r: string)
    ensures |r| == |s|
    ensures forall i :: 0 <= i < |s| ==> r[i] == if s[i] == '-' || s[i] == ' ' then '_' else s[i]
  {
    if s == [] then [] else [if s[0] == '-' || s[0] == ' ' then '_' else s[0]] + Underscored(s[1..])
  }

  /** ''.join(c for c in s if c.isalnum() or c == '_'), on ASCII alphanumerics. */
  function KeepIdent(s: string): (r: string)
    ensures |r| <= |s|
    ensures forall i :: 0 <= i < |r| ==> IdentChar(r[i])
  {
    if s == [] then [] else (if IdentChar(s[0]) then [s[0]] else []) + KeepIdent(s[1..])
  }

  /** The table name of a CSV file. */
  function TableName(csvFile: string): string {
    KeepIdent(Underscored(SplitExtRoot(csvFile)))
  }

  lemma {:induction false} KeepIdentKeepsIdents(s: string)
    requires forall i :: 0 <= i < |s| ==> IdentChar(s[i])
    ensures KeepIdent(s) == s
  {
    if s != [] {
      KeepIdentKeepsIdents(s[1..]);
    }
  }

  /**
   * A table name is made of letters, digits and underscores; for a name
   * `<stem>.csv` whose stem does not consist of dots only, it is the stem
   * with '-' and ' ' turned into '_' and every other foreign character
   * dropped, and a stem already made of such characters is kept whole.
   */
  lemma TableNameFromStem(csvFile: string)
    requires EndsWith(csvFile, ".csv")
    requires exists k :: 0 <= k < |csvFile| - 4 && csvFile[k] != '.'
    ensures var stem := csvFile[..|csvFile| - 4];
      TableName(csvFile) == KeepIdent(Underscored(stem)) &&
      ((forall i :: 0 <= i < |stem| ==> IdentChar(stem[i]) || stem[i] == '-' || stem[i] == ' ') ==>
         |TableName(csvFile)| == |stem|)
  {
    var stem := csvFile[..|csvFile| - 4];
    assert csvFile[|csvFile| - 4] == '.';
    assert LastDot(csvFile) == |csvFile| - 4;
    if forall i :: 0 <= i < |stem| ==> IdentChar(stem[i]) || stem[i] == '-' || stem[i] == ' ' {
      KeepIdentKeepsIdents(Underscored(stem));
    }
  }

  /** A file called just ".csv" has no extension to split off, so its table is "csv". */
  lemma DotCsvTable()
    ensures TableName(".csv") == "csv"
  {
    DotCsvRoot();
    DotCsvUnderscored();
    DotCsvKept();
  }

  lemma DotCsvRoot()
    ensures SplitExtRoot(".csv") == ".csv"
  {
    assert ".csv"[..3] == ".cs" && ".cs"[..2] == ".c" && ".c"[..1] == ".";
    assert LastDot(".csv") == 0;
  }

  lemma DotCsvUnderscored()
    ensures Underscored(".csv") == ".csv"
  {
  }

  lemma DotCsvKept()
    ensures KeepIdent(".csv") == "csv"
  {
    assert KeepIdent(".csv") == [] + KeepIdent("csv");
    KeepIdentKeepsIdents("csv");
  }

  // ---------------------------------------------------------------------
  // SQL string literals
  // ---------------------------------------------------------------------

  /** val.replace("'", "''") */
  function DoubleQuotes(s: string): (r: string)
    ensures |r| >= |s|
  {
    if s == [] then [] else (if s[0] == '\'' then "''" else [s[0]]) + DoubleQuotes(s[1..])
  }

  /** The literal the code writes for a str cell: single quotes doubled, backslashes left as they are. */
  function SqlLiteralAsWritten(s: string): string {
    "'" + DoubleQuotes(s) + "'"
  }

  /** Both quotes and backslashes escaped, so that MySQL reads back the original text. */
  function EscapeSql(s: string): (r: string)
    ensures |r| >= |s|
  {
    if s == [] then []
    else (if s[0] == '\'' then "''" else if s[0] == '\\' then "\\\\" else [s[0]]) + EscapeSql(s[1..])
  }

  function SqlLiteral(s: string): string {
    "'" + EscapeSql(s) + "'"
  }

  /**
   * What a backslash escape inside a quoted string stands for in MySQL's
   * default SQL mode (section 11.1.1, "String Literals", of the MySQL 8.0
   * Reference Manual): `\%` and `\_` keep their backslash.
   */
  function Unescaped(c: char): string {
    if c == '0' then "\0"
    else if c == 'b' then "\U{8}"
    else if c == 'n' then "\n"
    else if c == 'r' then "\r"
    else if c == 't' then "\t"
    else if c == 'Z' then "\U{1a}"
    else if c == '%' || c == '_' then ['\\', c]
    else [c]
  }

  function Prepend(p: string, r: Option<(string, string)>): Option<(string, string)> {
    match r
    case None => None
    case Some((v, rest)) => Some((p + v, rest))
  }

  /** The text of a quoted string after its opening quote, and what follows the closing quote; None when it never closes. */
  function ReadBody(t: string): Option<(string, string)>
    decreases |t|
  {
    if t == [] then None
    else if t[0] == '\'' then
      if |t| >= 2 && t[1] == '\'' then Prepend("'", ReadBody(t[2..])) else Some(("", t[1..]))
    else if t[0] == '\\' then
      if |t| < 2 then None else Prepend(Unescaped(t[1]), ReadBody(t[2..]))
    else Prepend([t[0]], ReadBody(t[1..]))
  }

  /** How MySQL reads a quoted string at the start of t. */
  function ReadLiteral(t: string): Option<(string, string)> {
    if t == [] || t[0] != '\'' then None else ReadBody(t[1..])
  }

  lemma {:induction false} EscapeReadsBack(s: string, rest: string)
    requires rest == [] || rest[0] != '\''
    ensures ReadBody(EscapeSql(s) + "'" + rest) == Some((s, rest))
    decreases |s|
  {
    if s == [] {
      assert EscapeSql(s) + "'" + rest == ['\''] + rest;
    } else {
      EscapeReadsBack(s[1..], rest);
      var head := if s[0] == '\'' then "''" else if s[0] == '\\' then "\\\\" else [s[0]];
      var t := EscapeSql(s) + "'" + rest;
      assert t == head + (EscapeSql(s[1..]) + "'" + rest);
      assert t[|head|..] == EscapeSql(s[1..]) + "'" + rest;
      assert [s[0]] + s[1..] == s;
    }
  }

  /** MySQL reads back exactly the cell's text from the escaped literal, whatever follows the literal. */
  lemma SqlLiteralRoundTrip(s: string, rest: string)
    requires rest == [] || rest[0] != '\''
    ensures ReadLiteral(SqlLiteral(s) + rest) == Some((s, rest))
  {
    EscapeReadsBack(s, rest);
    assert (SqlLiteral(s) + rest)[1..] == EscapeSql(s) + "'" + rest;
  }

  lemma {:induction false} DoubledReadsBack(s: string, rest: string)
    requires rest == [] || rest[0] != '\''
    requires forall i :: 0 <= i < |s| ==> s[i] != '\\'
    ensures ReadBody(DoubleQuotes(s) + "'" + rest) == Some((s, rest))
    decreases |s|
  {
    if s == [] {
      assert DoubleQuotes(s) + "'" + rest == ['\''] + rest;
    } else {
      DoubledReadsBack(s[1..], rest);
      var head := if s[0] == '\'' then "''" else [s[0]];
      var t := DoubleQuotes(s) + "'" + rest;
      assert t == head + (DoubleQuotes(s[1..]) + "'" + rest);
      assert t[|head|..] == DoubleQuotes(s[1..]) + "'" + rest;
      assert [s[0]] + s[1..] == s;
    }
  }

  /** The literal as written reads back correctly for text without a backslash. */
  lemma AsWrittenWithoutBackslash(s: string, rest: string)
    requires rest == [] || rest[0] != '\''
    requires forall i :: 0 <= i < |s| ==> s[i] != '\\'
    ensures ReadLiteral(SqlLiteralAsWritten(s) + rest) == Some((s, rest))
  {
    DoubledReadsBack(s, rest);
    assert (SqlLiteralAsWritten(s) + rest)[1..] == DoubleQuotes(s) + "'" + rest;
  }

  /** A cell whose text ends in a backslash: its literal as written never closes, the backslash escaping the closing quote. */
  lemma AsWrittenTrailingBackslash()
    ensures SqlLiteralAsWritten("a\\") == "'a\\'"
    ensures ReadLiteral(SqlLiteralAsWritten("a\\")) == None
    ensures ReadLiteral(SqlLiteral("a\\")) == Some(("a\\", ""))
  {
    assert DoubleQuotes("a\\") == "a\\" by {
      assert DoubleQuotes("\\") == "\\" + DoubleQuotes("");
    }
    var t := "a\\'";
    assert ReadBody(t) == Prepend("a", ReadBody(t[1..]));
    assert t[1..] == "\\'";
    assert ReadBody("\\'") == Prepend(Unescaped('\''), ReadBody(""));
    SqlLiteralRoundTrip("a\\", "");
  }

  // ---------------------------------------------------------------------
  // Rows
  // ---------------------------------------------------------------------

  /**
   * One value of a row, as the code writes it: NULL for a missing cell, a
   * str between single quotes with only its quotes doubled, str(val)
   * otherwise. Backslashes stay as they are.
   */
  function RenderCell(c: Cell): string {
    match c
    case Missing => "NULL"
    case Text(s) => SqlLiteralAsWritten(s)
    case Scalar(r) => r
  }

  /** The intended rendering: a str whose quotes and backslashes are both escaped. */
  function RenderCellEscaped(c: Cell): string {
    match c
    case Missing => "NULL"
    case Text(s) => SqlLiteral(s)
    case Scalar(r) => r
  }

  lemma {:induction false} EscapeWithoutBackslash(s: string)
    requires forall i :: 0 <= i < |s| ==> s[i] != '\\'
    ensures EscapeSql(s) == DoubleQuotes(s)
    decreases |s|
  {
    if s != [] {
      EscapeWithoutBackslash(s[1..]);
    }
  }

  /** The two renderings differ only on text holding a backslash. */
  lemma RenderingsAgreeWithoutBackslash(c: Cell)
    requires c.Text? ==> forall i :: 0 <= i < |c.s| ==> c.s[i] != '\\'
    ensures RenderCell(c) == RenderCellEscaped(c)
  {
    if c.Text? {
      EscapeWithoutBackslash(c.s);
    }
  }

  /** A rendered text cell reads back as its text when it holds no backslash; the escaped one always does. */
  lemma TextCellReadsBack(s: string, rest: string)
    requires rest == [] || rest[0] != '\''
    ensures (forall i :: 0 <= i < |s| ==> s[i] != '\\') ==> ReadLiteral(RenderCell(Text(s)) + rest) == Some((s, rest))
    ensures ReadLiteral(RenderCellEscaped(Text(s)) + rest) == Some((s, rest))
  {
    if forall i :: 0 <= i < |s| ==> s[i] != '\\' {
      AsWrittenWithoutBackslash(s, rest);
    }
    SqlLiteralRoundTrip(s, rest);
  }

  /** f"({', '.join(row_values)})" */
  function RowTuple(row: seq<Cell>): string {
    "(" + Join(seq(|row|, i requires 0 <= i < |row| => RenderCell(row[i])), ", ") + ")"
  }

  /** The loop over the values of one row. */
  method RenderRow(row: seq<Cell>) returns (tuple: string)
    ensures tuple == RowTuple(row)
  {
    var values: seq<string> := [];
    for i := 0 to |row|
      invariant values == seq(i, k requires 0 <= k < i => RenderCell(row[k]))
    {
      values := values + [RenderCell(row[i])];
    }
    tuple := "(" + Join(values, ", ") + ")";
  }

  /** The loop over the rows of the frame. */
  method RenderRows(rows: seq<seq<Cell>>) returns (valuesList: seq<string>)
    ensures valuesList == seq(|rows|, i requires 0 <= i < |rows| => RowTuple(rows[i]))
  {
    valuesList := [];
    for i := 0 to |rows|
      invariant valuesList == seq(i, k requires 0 <= k < i => RowTuple(rows[k]))
    {
      var tuple := RenderRow(rows[i]);
      valuesList := valuesList + [tuple];
    }
  }

  // ---------------------------------------------------------------------
  // Batches of 1000 rows
  // ---------------------------------------------------------------------

  const BatchSize := 1000

  /** values_list[i:i + 1000] for i in range(0, len(values_list), 1000) */
  function Batches<T>(xs: seq<T>): seq<seq<T>>
    decreases |xs|
  {
    if xs == [] then []
    else if |xs| <= BatchSize then [xs]
    else [xs[..BatchSize]] + Batches(xs[BatchSize..])
  }

  function Flatten<T>(xss: seq<seq<T>>): seq<T> {
    if xss == [] then [] else xss[0] + Flatten(xss[1..])
  }

  /**
   * The batches cover every row exactly once and in order, each holds
   * between 1 and 1000 rows, all but the last hold exactly 1000, and there
   * are ceil(n / 1000) of them.
   */
  lemma {:induction false} BatchesCover<T>(xs: seq<T>)
    ensures Flatten(Batches(xs)) == xs
    ensures forall k :: 0 <= k < |Batches(xs)| ==> 1 <= |Batches(xs)[k]| <= BatchSize
    ensures forall k :: 0 <= k < |Batches(xs)| - 1 ==> |Batches(xs)[k]| == BatchSize
    ensures |Batches(xs)| == (|xs| + BatchSize - 1) / BatchSize
    decreases |xs|
  {
    if |xs| > BatchSize {
      var rest := xs[BatchSize..];
      BatchesCover(rest);
      assert Batches(xs)[1..] == Batches(rest);
      assert xs[..BatchSize] + rest == xs;
    } else if xs != [] {
      assert Flatten([xs]) == xs + Flatten([]);
    }
  }

  /** The slicing loop: range(0, total_rows, 1000). */
  method SliceBatches<T>(xs: seq<T>) returns (batches: seq<seq<T>>)
    ensures batches == Batches(xs)
  {
    batches := [];
    var i := 0;
    while i < |xs|
      invariant 0 <= i <= |xs|
      invariant batches + Batches(xs[i..]) == Batches(xs)
      decreases |xs| - i
    {
      var end := if i + BatchSize <= |xs| then i + BatchSize else |xs|;
      assert Batches(xs[i..]) == [xs[i..end]] + Batches(xs[end..]) by {
        if end < |xs| {
          assert xs[i..][..BatchSize] == xs[i..end];
          assert xs[i..][BatchSize..] == xs[end..];
        } else {
          assert xs[i..end] == xs[i..];
          assert Batches(xs[end..]) == [];
          assert [xs[i..end]] + [] == [xs[i..end]];
        }
      }
      batches := batches + [xs[i..end]];
      i := end;
    }
    assert xs[i..] == [];
  }

  // ---------------------------------------------------------------------
  // create_table_from_csv
  // ---------------------------------------------------------------------

  /** A column of the parsed CSV file, under its header name, with its pandas dtype. */
  datatype Column = Column(name: string, dtype: DType)

  datatype Frame = Frame(columns: seq<Column>, rows: seq<seq<Cell>>)

  /** pandas keeps every row as wide as the header. */
  predicate Rectangular(f: Frame) {
    forall r :: 0 <= r < |f.rows| ==> |f.rows[r]| == |f.columns|
  }

  type DataFrame = f: Frame | Rectangular(f) witness Frame([], [])

  /** df.empty: no rows or no columns. */
  predicate IsEmpty(df: DataFrame) {
    |df.columns| == 0 || |df.rows| == 0
  }

  function ColumnCells(df: DataFrame, c: nat): seq<Cell>
    requires c < |df.columns|
  {
    seq(|df.rows|, r requires 0 <= r < |df.rows| => df.rows[r][c])
  }

  /** The type a column gets: its dtype and, for text, the length hint from its cells. */
  function ColumnType(df: DataFrame, c: nat): SqlType
    requires c < |df.columns|
  {
    var col := df.columns[c];
    MySqlType(col.dtype, LengthHint(col.dtype, ColumnCells(df, c)))
  }

  function ColumnDefinition(df: DataFrame, c: nat): string
    requires c < |df.columns|
  {
    "`" + CleanColumnName(df.columns[c].name) + "` " + SqlTypeText(ColumnType(df, c))
  }

  function ColumnDefinitions(df: DataFrame): seq<string> {
    seq(|df.columns|, c requires 0 <= c < |df.columns| => ColumnDefinition(df, c))
  }

  function RowTuples(df: DataFrame): seq<string> {
    seq(|df.rows|, r requires 0 <= r < |df.rows| => RowTuple(df.rows[r]))
  }

  function DropSql(table: string): string { "DROP TABLE IF EXISTS `" + table + "`" }

  function CreateSql(table: string, definitions: seq<string>): string {
    "CREATE TABLE `" + table + "` (" + Join(definitions, ", ") + ")"
  }

  function InsertSql(table: string, batch: seq<string>): string {
    "INSERT INTO `" + table + "` VALUES " + Join(batch, ", ")
  }

  function CountSql(table: string): string { "SELECT COUNT(*) FROM `" + table + "`" }

  function InsertStatements(table: string, batches: seq<seq<string>>): seq<string> {
    seq(|batches|, k requires 0 <= k < |batches| => InsertSql(table, batches[k]))
  }

  /**
   * Another column cleans to the same name as column c, so df[col] selects
   * a frame of both columns rather than one series.
   */
  predicate NameShared(df: DataFrame, c: nat)
    requires c < |df.columns|
  {
    exists d :: 0 <= d < |df.columns| && d != c && CleanColumnName(df.columns[d].name) == CleanColumnName(df.columns[c].name)
  }

  /** No two columns clean to the same name. */
  predicate CleanNamesDistinct(df: DataFrame) {
    forall i, j :: 0 <= i < j < |df.columns| ==> CleanColumnName(df.columns[i].name) != CleanColumnName(df.columns[j].name)
  }

  /** The names are distinct exactly when no column shares its cleaned name. */
  lemma DistinctIffNoneShared(df: DataFrame)
    ensures CleanNamesDistinct(df) <==> forall c :: 0 <= c < |df.columns| ==> !NameShared(df, c)
  {
    if !CleanNamesDistinct(df) {
      var i, j :| 0 <= i < j < |df.columns| && CleanColumnName(df.columns[i].name) == CleanColumnName(df.columns[j].name);
      assert NameShared(df, i);
    }
  }

  /** str() of the AttributeError raised by `.dtype` on a DataFrame. */
  const FrameDtypeError := "'DataFrame' object has no attribute 'dtype'"

  /**
   * What create_table_from_csv does with one file: it skips an empty frame,
   * aborts after the statements already sent when an exception is raised
   * (and returns False), or sends the whole load (and returns True).
   */
  datatype TableLoad = Skipped | Aborted(sent: seq<string>, error: string) | Loaded(sent: seq<string>)

  /**
   * The statements create_table_from_csv sends for one file, in order.
   * Columns whose cleaned names collide make the definition loop raise
   * after the DROP, before anything is created.
   */
  function CsvStatements(table: string, df: DataFrame): TableLoad {
    if IsEmpty(df) then Skipped
    else if !CleanNamesDistinct(df) then Aborted([DropSql(table)], FrameDtypeError)
    else
      Loaded([DropSql(table), CreateSql(table, ColumnDefinitions(df))]
             + InsertStatements(table, Batches(RowTuples(df)))
             + [CountSql(table)])
  }

  /**
   * An empty frame sends nothing. Colliding cleaned names send only the
   * DROP. Otherwise the table is dropped and created first, its row count is
   * read last, and in between come ceil(rows / 1000) INSERT statements whose
   * batches hold every row's tuple exactly once and in order, at most 1000
   * to a statement.
   */
  lemma CsvStatementsShape(table: string, df: DataFrame)
    ensures CsvStatements(table, df).Skipped? <==> IsEmpty(df)
    ensures CsvStatements(table, df).Aborted? <==> !IsEmpty(df) && !CleanNamesDistinct(df)
    ensures CsvStatements(table, df).Aborted? ==> CsvStatements(table, df).sent == [DropSql(table)]
    ensures CsvStatements(table, df).Loaded? ==>
      var stmts := CsvStatements(table, df).sent;
      var batches := Batches(RowTuples(df));
      |stmts| == 3 + (|df.rows| + BatchSize - 1) / BatchSize &&
      stmts[0] == DropSql(table) &&
      stmts[1] == CreateSql(table, ColumnDefinitions(df)) &&
      stmts[|stmts| - 1] == CountSql(table) &&
      (forall k :: 0 <= k < |batches| ==> stmts[2 + k] == InsertSql(table, batches[k]) && 1 <= |batches[k]| <= BatchSize) &&
      Flatten(batches) == RowTuples(df)
  {
    var batches := Batches(RowTuples(df));
    BatchesCover(RowTuples(df));
    if !IsEmpty(df) && CleanNamesDistinct(df) {
      StatementsLayout(table, DropSql(table), CreateSql(table, ColumnDefinitions(df)), CountSql(table), batches);
    }
  }

  /** Where the statements sit around the INSERTs of the batches. */
  lemma StatementsLayout(table: string, drop: string, create: string, count: string, batches: seq<seq<string>>)
    ensures var stmts := [drop, create] + InsertStatements(table, batches) + [count];
      |stmts| == 3 + |batches| && stmts[0] == drop && stmts[1] == create && stmts[|stmts| - 1] == count &&
      forall k :: 0 <= k < |batches| ==> stmts[2 + k] == InsertSql(table, batches[k])
  {
  }

  lemma InsertContainsTuple(table: string, batch: seq<string>, j: nat)
    requires j < |batch|
    ensures Contains(InsertSql(table, batch), batch[j])
  {
    JoinContainsPart(batch, ", ", j);
    ContainsWidens("", Join(batch, ", "), batch[j]);
    assert InsertSql(table, batch) == ("INSERT INTO `" + table + "` VALUES ") + Join(batch, ", ") + "";
  }

  /**
   * Every row of a non-empty frame whose cleaned column names are distinct
   * appears, as its value tuple, in one of the INSERT statements.
   */
  lemma EveryRowInserted(table: string, df: DataFrame, r: nat)
    requires !IsEmpty(df) && CleanNamesDistinct(df) && r < |df.rows|
    ensures CsvStatements(table, df).Loaded?
    ensures exists k :: (2 <= k < |CsvStatements(table, df).sent| - 1 &&
      Contains(CsvStatements(table, df).sent[k], RowTuple(df.rows[r])))
  {
    var values := RowTuples(df);
    var batches := Batches(values);
    BatchesCover(values);
    var b, j := FlattenIndex(batches, r);
    InsertContainsTuple(table, batches[b], j);
    var stmts := CsvStatements(table, df).sent;
    assert stmts[2 + b] == InsertSql(table, batches[b]);
    assert batches[b][j] == values[r] == RowTuple(df.rows[r]);
  }

  /** Where the i-th element of a flattened sequence of non-empty pieces comes from. */
  lemma {:induction false} FlattenIndex<T>(xss: seq<seq<T>>, i: nat) returns (b: nat, j: nat)
    requires i < |Flatten(xss)|
    ensures b < |xss| && j < |xss[b]| && xss[b][j] == Flatten(xss)[i]
    decreases |xss|
  {
    if i < |xss[0]| {
      b, j := 0, i;
    } else {
      var b', j' := FlattenIndex(xss[1..], i - |xss[0]|);
      b, j := b' + 1, j';
    }
  }

  /**
   * The loop that builds the column definitions; it raises at the first
   * column whose cleaned name another column shares.
   */
  method BuildColumnDefinitions(df: DataFrame) returns (r: Result<seq<string>>)
    ensures r.Success? <==> CleanNamesDistinct(df)
    ensures r.Success? ==> r.value == ColumnDefinitions(df)
    ensures r.Failure? ==> r.error == FrameDtypeError
  {
    DistinctIffNoneShared(df);
    var columns := [];
    for c := 0 to |df.columns|
      invariant columns == seq(c, k requires 0 <= k < c => ColumnDefinition(df, k))
      invariant forall k :: 0 <= k < c ==> !NameShared(df, k)
    {
      if NameShared(df, c) {
        return Failure(FrameDtypeError);
      }
      columns := columns + [ColumnDefinition(df, c)];
    }
    return Success(columns);
  }

  /** "a b" and "a-b" both clean to "a_b": only the DROP is sent, and the file is not imported. */
  lemma CollidingHeadersAbort(table: string, first: DType, second: DType, row: seq<Cell>)
    requires |row| == 2
    ensures CsvStatements(table, Frame([Column("a b", first), Column("a-b", second)], [row]))
            == Aborted([DropSql(table)], FrameDtypeError)
  {
    var df: DataFrame := Frame([Column("a b", first), Column("a-b", second)], [row]);
    assert ReplaceOthers("a b") == "a_b";
    assert ReplaceOthers("a-b") == "a_b";
    assert CleanColumnName(df.columns[0].name) == "a_b" == CleanColumnName(df.columns[1].name);
  }

  /** create_table_from_csv: the statements it sends in order, and how it ends. */
  method CreateTableFromCsv(table: string, df: DataFrame) returns (outcome: TableLoad)
    ensures outcome == CsvStatements(table, df)
  {
    if IsEmpty(df) {
      return Skipped;
    }
    var sent := [DropSql(table)];
    var columns := BuildColumnDefinitions(df);
    if columns.Failure? {
      return Aborted(sent, columns.error);
    }
    var valuesList := RenderRows(df.rows);
    assert valuesList == RowTuples(df);
    var batches := SliceBatches(valuesList);
    var inserts := InsertBatches(table, batches);
    outcome := Loaded(sent + [CreateSql(table, columns.value)] + inserts + [CountSql(table)]);
  }

  /** The loop that sends one INSERT per batch, in batch order. */
  method InsertBatches(table: string, batches: seq<seq<string>>) returns (inserts: seq<string>)
    ensures inserts == InsertStatements(table, batches)
  {
    inserts := [];
    for k := 0 to |batches|
      invariant inserts == InsertStatements(table, batches[..k])
    {
      assert InsertStatements(table, batches[..k + 1]) == InsertStatements(table, batches[..k]) + [InsertSql(table, batches[k])];
      inserts := inserts + [InsertSql(table, batches[k])];
    }
    assert batches[..|batches|] == batches;
  }

  // ---------------------------------------------------------------------
  // process_csv_files
  // ---------------------------------------------------------------------

  predicate IsCsv(name: string) { EndsWith(name, ".csv") }

  /** [f for f in os.listdir(csv_dir) if f.endswith('.csv')] */
  function CsvFiles(listing: seq<string>): (r: seq<string>)
    ensures |r| <= |listing|
    ensures forall i :: 0 <= i < |r| ==> IsCsv(r[i])
  {
    if listing == [] then []
    else (if IsCsv(listing[0]) then [listing[0]] else []) + CsvFiles(listing[1..])
  }

  /** The CSV files of a listing are exactly its names ending in ".csv", in listing order. */
  lemma {:induction false} CsvFilesExactly(listing: seq<string>)
    ensures forall f :: f in CsvFiles(listing) <==> f in listing && IsCsv(f)
    ensures |CsvFiles(listing)| == |listing| <==> forall i :: 0 <= i < |listing| ==> IsCsv(listing[i])
  {
    if listing != [] {
      CsvFilesExactly(listing[1..]);
      assert listing == [listing[0]] + listing[1..];
    }
  }

  /** How many of the files the database accepted. */
  function SuccessCount(files: seq<string>, imported: string -> bool): (n: nat)
    ensures n <= |files|
    ensures n == |files| <==> forall i :: 0 <= i < |files| ==> imported(files[i])
    ensures n == 0 <==> forall i :: 0 <= i < |files| ==> !imported(files[i])
  {
    if files == [] then 0
    else
      var front := files[..|files| - 1];
      assert forall i :: 0 <= i < |front| ==> front[i] == files[i];
      SuccessCount(front, imported) + (if imported(files[|files| - 1]) then 1 else 0)
  }

  lemma SuccessCountStep(files: seq<string>, i: nat, imported: string -> bool)
    requires i < |files|
    ensures SuccessCount(files[..i + 1], imported) == SuccessCount(files[..i], imported) + if imported(files[i]) then 1 else 0
  {
    assert files[..i + 1][..i] == files[..i];
  }

  /**
   * process_csv_files: it reports success exactly when it could connect and
   * the CSV directory exists, whatever happened to the individual files;
   * `imported` stands for create_table_from_csv against the database.
   * successCount is the count it logs.
   */
  method ProcessCsvFiles(connected: bool, dirExists: bool, listing: seq<string>, imported: string -> bool)
    returns (ok: bool, successCount: nat)
    ensures ok <==> connected && dirExists
    ensures successCount == if ok then SuccessCount(CsvFiles(listing), imported) else 0
  {
    if !connected || !dirExists {
      return false, 0;
    }
    var csvFiles := CsvFiles(listing);
    if csvFiles == [] {
      return true, 0;
    }
    successCount := 0;
    for i := 0 to |csvFiles|
      invariant successCount == SuccessCount(csvFiles[..i], imported)
    {
      SuccessCountStep(csvFiles, i, imported);
      if imported(csvFiles[i]) {
        successCount := successCount + 1;
      }
    }
    assert csvFiles[..|csvFiles|] == csvFiles;
    ok := true;
  }

  // ---------------------------------------------------------------------
  // The polling loop of main
  // ---------------------------------------------------------------------

  /** csv_files - processed_files */
  function NewFiles(listing: seq<string>, processed: set<string>): (r: set<string>)
    ensures forall f :: f in r <==> f in listing && IsCsv(f) && f !in processed
  {
    CsvFilesExactly(listing);
    (set f | f in CsvFiles(listing)) - processed
  }

  /** The processed files after one pass of the loop. */
  function AfterPoll(processed: set<string>, dirExists: bool, listing: seq<string>, connected: bool): set<string> {
    var incoming := NewFiles(listing, processed);
    if dirExists && incoming != {} && connected then processed + incoming else processed
  }

  /**
   * A pass never forgets a file; a file joins the processed set only when
   * it is a CSV file of the listing and the run over the directory reported
   * success, and then every new file joins, including the ones the
   * database rejected, which are therefore never retried.
   */
  lemma PollBookkeeping(processed: set<string>, dirExists: bool, listing: seq<string>, connected: bool, f: string)
    ensures processed <= AfterPoll(processed, dirExists, listing, connected)
    ensures f in AfterPoll(processed, dirExists, listing, connected) && f !in processed <==>
      dirExists && connected && f in listing && IsCsv(f) && f !in processed
  {
  }

  /** The service loop's state: the CSV files it has seen imported. */
  class ImportService {
    var processedFiles: set<string>

    ghost predicate Valid()
      reads this
    {
      forall f :: f in processedFiles ==> IsCsv(f)
    }

    constructor ()
      ensures Valid() && processedFiles == {}
    {
      processedFiles := {};
    }

    /**
     * One pass: when the directory exists and holds CSV files not yet
     * processed, the whole directory is processed again, and the new files
     * are marked when that run succeeds.  `ran` says whether the run took
     * place, `successCount` is the run's count.
     */
    method Poll(dirExists: bool, listing: seq<string>, connected: bool, imported: string -> bool)
      returns (ran: bool, successCount: nat)
      requires Valid()
      modifies this
      ensures Valid()
      ensures ran <==> dirExists && NewFiles(listing, old(processedFiles)) != {}
      ensures processedFiles == AfterPoll(old(processedFiles), dirExists, listing, connected)
    {
      ran, successCount := false, 0;
      if dirExists {
        var incoming := NewFiles(listing, processedFiles);
        if incoming != {} {
          ran := true;
          var ok;
          ok, successCount := ProcessCsvFiles(connected, dirExists, listing, imported);
          if ok {
            processedFiles := processedFiles + incoming;
          }
        }
      }
    }
  }
}
