/**
 * The database tool: a guard that lets only SELECT statements through, and
 * the Markdown table the query result is printed as. Running the SQL is an
 * oracle that yields the rows or an error message.
 */
module Database {
  import opened Base
  import opened Text
  import opened Assoc

  const EmptySql: string := "错误：SQL 语句不能为空"
  const NotSelect: string := "错误：仅允许 SELECT 查询语句"
  const Dangerous: string := "错误：检测到危险 SQL 关键字，查询被拒绝"

  /** The words whose occurrence anywhere rejects a statement, in the order they are tested. */
  const Keywords: seq<string> := ["DROP", "DELETE", "UPDATE", "INSERT", "ALTER", "TRUNCATE"]

  /** What the checks look at: the statement trimmed and upper-cased. */
  function Normalized(sql: string): string {
    ToUpper(Trim(sql))
  }

  /** Some keyword occurs somewhere in the text, inside a word or not. */
  predicate HasKeyword(upper: string) {
    exists i :: 0 <= i < |Keywords| && Contains(upper, Keywords[i])
  }

  /** The six `contains` tests of `queryDatabase`, one after the other. */
  function KeywordTest(upper: string): (hit: bool)
    ensures hit <==> HasKeyword(upper)
  {
    assert Keywords[0] == "DROP" && Keywords[1] == "DELETE" && Keywords[2] == "UPDATE";
    assert Keywords[3] == "INSERT" && Keywords[4] == "ALTER" && Keywords[5] == "TRUNCATE";
    Contains(upper, "DROP") || Contains(upper, "DELETE") || Contains(upper, "UPDATE")
    || Contains(upper, "INSERT") || Contains(upper, "ALTER") || Contains(upper, "TRUNCATE")
  }

  /**
   * The checks of `queryDatabase`, in order: the message of the first that
   * fails, or none when the statement may run.
   */
  function Guard(sql: Option<string>): (rejection: Option<string>)
    ensures sql.None? || IsBlank(sql.value) ==> rejection == Some(EmptySql)
    ensures sql.Some? && !IsBlank(sql.value) && !StartsWith(Normalized(sql.value), "SELECT") ==>
              rejection == Some(NotSelect)
    ensures (sql.Some? && !IsBlank(sql.value) && StartsWith(Normalized(sql.value), "SELECT")
             && HasKeyword(Normalized(sql.value))) ==> rejection == Some(Dangerous)
    ensures rejection.None? <==>
              sql.Some? && !IsBlank(sql.value) && StartsWith(Normalized(sql.value), "SELECT")
              && !HasKeyword(Normalized(sql.value))
  {
    if sql.None? || IsBlank(sql.value) then Some(EmptySql)
    else
      var upper := Normalized(sql.value);
      if !StartsWith(upper, "SELECT") then Some(NotSelect)
      else if KeywordTest(upper) then Some(Dangerous)
      else None
  }

  /** "UPDATE" anywhere in the text is a keyword hit. */
  lemma UpdateIsKeyword(upper: string, i: nat)
    requires OccursAt(upper, "UPDATE", i)
    ensures HasKeyword(upper)
  {
    ContainsIff(upper, "UPDATE");
    assert Keywords[2] == "UPDATE";
  }

  /** A SELECT statement with "update" anywhere in it, even inside a word, is rejected as dangerous. */
  lemma UpdateInsideRejected(sql: string, i: nat)
    requires Trim(sql) == sql && !IsBlank(sql)
    requires StartsWith(ToUpper(sql), "SELECT") && OccursAt(ToUpper(sql), "UPDATE", i)
    ensures Guard(Some(sql)) == Some(Dangerous)
  {
    UpdateIsKeyword(ToUpper(sql), i);
  }

  /** The sample statement needs no trimming and is not blank. */
  lemma SampleTrimmed(sql: string)
    requires sql == "select updated_at"
    ensures Trim(sql) == sql && !IsBlank(sql)
  {
    assert !TrimmedAway(sql[0]) && !TrimmedAway(sql[|sql| - 1]);
    assert !IsWhitespace(sql[0]);
  }

  /** The sample statement upper-cases to "SELECT UPDATED_AT". */
  lemma SampleUpperCased(sql: string)
    requires sql == "select updated_at"
    ensures StartsWith(ToUpper(sql), "SELECT") && OccursAt(ToUpper(sql), "UPDATE", 7)
  {
    var upper := ToUpper(sql);
    assert upper[..6] == "SELECT" by {
      assert forall i :: 0 <= i < 6 ==> upper[i] == UpperChar(sql[i]);
    }
    assert forall i :: 7 <= i < 13 ==> upper[i] == UpperChar(sql[i]);
    assert upper[7..13] == "UPDATE";
  }

  /** The keyword test looks inside words: a harmless column name that contains one rejects the statement. */
  lemma UpdatedAtRejected(sql: string)
    requires sql == "select updated_at"
    ensures Guard(Some(sql)) == Some(Dangerous)
  {
    SampleTrimmed(sql);
    SampleUpperCased(sql);
    UpdateInsideRejected(sql, 7);
  }

  // ------------------------------------------------------------------ the result table

  /** A result row: column name to value (null as None), in column order. */
  type Row = Entries<Option<string>>

  /** What a cell prints: the value, or NULL when it is null or the row lacks the column. */
  function Cell(row: Row, column: string): (text: string)
    ensures Get(row, column) == Some(None) || Get(row, column).None? ==> text == "NULL"
    ensures Get(row, column).Some? && Get(row, column).value.Some? ==> text == Get(row, column).value.value
  {
    var v := Get(row, column);
    if v.Some? && v.value.Some? then v.value.value else "NULL"
  }

  /** Each text followed by " | ", in order. */
  function Cells(texts: seq<string>): string {
    if |texts| == 0 then "" else Cells(texts[..|texts| - 1]) + texts[|texts| - 1] + " | "
  }

  lemma CellsSnoc(texts: seq<string>, k: nat)
    requires k < |texts|
    ensures Cells(texts[..k + 1]) == Cells(texts[..k]) + texts[k] + " | "
  {
    assert texts[..k + 1][..k] == texts[..k];
  }

  /** The row's cells under the given columns. */
  function RowTexts(row: Row, columns: seq<string>): (texts: seq<string>)
    ensures |texts| == |columns|
    ensures forall c :: 0 <= c < |columns| ==> texts[c] == Cell(row, columns[c])
  {
    seq(|columns|, c requires 0 <= c < |columns| => Cell(row, columns[c]))
  }

  function RowLine(row: Row, columns: seq<string>): string {
    "| " + Cells(RowTexts(row, columns)) + "\n"
  }

  /** One line per row, in result order. */
  function RowLines(rows: seq<Row>, columns: seq<string>): string {
    if |rows| == 0 then "" else RowLines(rows[..|rows| - 1], columns) + RowLine(rows[|rows| - 1], columns)
  }

  lemma RowLinesSnoc(rows: seq<Row>, columns: seq<string>, k: nat)
    requires k < |rows|
    ensures RowLines(rows[..k + 1], columns) == RowLines(rows[..k], columns) + RowLine(rows[k], columns)
  {
    assert rows[..k + 1][..k] == rows[..k];
  }

  /** One "---|" per column. */
  function Separator(n: nat): (s: string)
    ensures |s| == 4 * n
    ensures forall c :: 0 <= c < n ==> s[4 * c..4 * c + 4] == "---|"
  {
    if n == 0 then ""
    else
      var prev := Separator(n - 1);
      var s := prev + "---|";
      assert |prev| == 4 * n - 4;
      assert s[4 * n - 4..4 * n] == "---|";
      assert forall c :: 0 <= c < n - 1 ==> s[4 * c..4 * c + 4] == prev[4 * c..4 * c + 4];
      s
  }

  function Heading(count: nat): string {
    "查询结果（共 " + NatToString(count) + " 条记录）：\n\n"
  }

  /** The whole table: the count, the header from the first row's columns, the separator, the rows. */
  function Table(rows: seq<Row>): string
    requires |rows| > 0
  {
    var columns := Keys(rows[0]);
    Heading(|rows|) + "| " + Cells(columns) + "\n|" + Separator(|columns|) + "\n" + RowLines(rows, columns)
  }

  /** `queryDatabase`: the guard's message, the execution error, the empty-result note (which repeats the SQL), or the table. */
  function QueryReply(sql: Option<string>, run: string -> Result<seq<Row>>): (reply: string)
    ensures Guard(sql).Some? ==> reply == Guard(sql).value
    ensures Guard(sql).None? && run(sql.value) == Ok([]) ==> reply == "查询成功，但没有找到匹配的数据。SQL: " + sql.value
  {
    match Guard(sql)
    case Some(message) => message
    case None =>
      match run(sql.value)
      case Err(m) => "SQL 执行错误: " + m
      case Ok(rows) =>
        if |rows| == 0 then "查询成功，但没有找到匹配的数据。SQL: " + sql.value
        else Table(rows)
  }

  /** A statement the guard rejects never reaches the database: the reply is the same whatever it would return. */
  lemma RejectedNeverRuns(sql: Option<string>, run1: string -> Result<seq<Row>>, run2: string -> Result<seq<Row>>)
    requires Guard(sql).Some?
    ensures QueryReply(sql, run1) == QueryReply(sql, run2)
  {
  }

  /** The header loop, and each row's inner loop: every text and " | " appended in turn. */
  method AppendCells(texts: seq<string>) returns (s: string)
    ensures s == Cells(texts)
  {
    s := "";
    for k := 0 to |texts|
      invariant s == Cells(texts[..k])
    {
      CellsSnoc(texts, k);
      s := s + texts[k] + " | ";
    }
    assert texts[..|texts|] == texts;
  }

  method FormatRow(row: Row, columns: seq<string>) returns (line: string)
    ensures line == RowLine(row, columns)
  {
    var texts: seq<string> := [];
    for c := 0 to |columns|
      invariant texts == RowTexts(row, columns[..c])
    {
      var v := Get(row, columns[c]);
      var text := if v.Some? && v.value.Some? then v.value.value else "NULL";
      texts := texts + [text];
    }
    assert columns[..|columns|] == columns;
    var cells := AppendCells(texts);
    line := "| " + cells + "\n";
  }

  method FormatTable(rows: seq<Row>) returns (text: string)
    requires |rows| > 0
    ensures text == Table(rows)
  {
    var columns := Keys(rows[0]);
    var header := AppendCells(columns);
    var separator := "";
    for c := 0 to |columns|
      invariant separator == Separator(c)
    {
      separator := separator + "---|";
    }
    var lines := "";
    for k := 0 to |rows|
      invariant lines == RowLines(rows[..k], columns)
    {
      RowLinesSnoc(rows, columns, k);
      var line := FormatRow(rows[k], columns);
      lines := lines + line;
    }
    assert rows[..|rows|] == rows;
    text := Heading(|rows|) + "| " + header + "\n|" + separator + "\n" + lines;
  }

  /** `queryDatabase`. */
  method QueryDatabase(sql: Option<string>, run: string -> Result<seq<Row>>) returns (reply: string)
    ensures reply == QueryReply(sql, run)
  {
    var rejection := Guard(sql);
    if rejection.Some? {
      return rejection.value;
    }
    var result := run(sql.value);
    if result.Err? {
      return "SQL 执行错误: " + result.message;
    }
    if |result.value| == 0 {
      return "查询成功，但没有找到匹配的数据。SQL: " + sql.value;
    }
    reply := FormatTable(result.value);
  }
}
