/**
 * `table_to_markdown` and `extract_docx_table` (docx_loader.py): a table,
 * given as rows of cells, becomes a Markdown table whose header row fixes
 * the width of every other row.
 */
module DocxTables {
  import opened Strings
  import opened PyValues
  import Sequences

  /** `str(cell) if cell else ""`. */
  function CellText(cell: Value): string
  {
    if Truthy(cell) then ToStr(cell) else ""
  }

  function CellTexts(row: seq<Value>): (r: seq<string>)
    ensures |r| == |row| && forall j :: 0 <= j < |row| ==> r[j] == CellText(row[j])
  {
    seq(|row|, j requires 0 <= j < |row| => CellText(row[j]))
  }

  /** `"| " + " | ".join(cells) + " |"`. */
  function RowLine(cells: seq<string>): string
  {
    "| " + Join(" | ", cells) + " |"
  }

  /** `row + [""] * (width - len(row))`, then `[:width]`. */
  function FitRow(row: seq<Value>, width: nat): (r: seq<Value>)
    ensures |r| == width
    ensures forall j :: 0 <= j < width ==> r[j] == if j < |row| then row[j] else PyStr("")
  {
    var padded := row + seq(if width > |row| then width - |row| else 0, _ => PyStr(""));
    padded[..width]
  }

  /** The separator line's cells: one "---" per header cell. */
  function Separator(width: nat): (r: seq<string>)
    ensures |r| == width && forall j :: 0 <= j < width ==> r[j] == "---"
  {
    seq(width, _ => "---")
  }

  /** A data row's cells: exactly `width` of them. */
  function DataCells(row: seq<Value>, width: nat): seq<string>
  {
    CellTexts(FitRow(row, width))
  }

  /**
   * A data row has exactly as many cells as the header: its own cells as
   * far as they go, "" after them, and nothing beyond the header's width.
   */
  lemma DataCellsShape(row: seq<Value>, width: nat)
    ensures |DataCells(row, width)| == width
    ensures forall j :: 0 <= j < width ==> DataCells(row, width)[j] == if j < |row| then CellText(row[j]) else ""
  {
  }

  function DataLine(row: seq<Value>, width: nat): string
  {
    RowLine(DataCells(row, width))
  }

  /** The lines of the Markdown of a table of at least two rows. */
  function MarkdownLines(table: seq<seq<Value>>): (lines: seq<string>)
    requires |table| >= 2
    ensures |lines| == |table| + 1
  {
    [RowLine(CellTexts(table[0])), RowLine(Separator(|table[0]|))]
      + seq(|table| - 1, i requires 0 <= i < |table| - 1 => DataLine(table[i + 1], |table[0]|))
  }

  /** The header line, the separator line, then one line per data row, in order. */
  lemma MarkdownLinesShape(table: seq<seq<Value>>)
    requires |table| >= 2
    ensures MarkdownLines(table)[0] == RowLine(CellTexts(table[0]))
    ensures MarkdownLines(table)[1] == RowLine(Separator(|table[0]|))
    ensures forall i :: 1 <= i < |table| ==> MarkdownLines(table)[i + 1] == RowLine(DataCells(table[i], |table[0]|))
  {
    forall i | 1 <= i < |table|
      ensures MarkdownLines(table)[i + 1] == RowLine(DataCells(table[i], |table[0]|))
    {
      assert MarkdownLines(table)[i + 1] == DataLine(table[i], |table[0]|);
    }
  }

  lemma MarkdownLinesPrefix(table: seq<seq<Value>>, r: nat)
    requires |table| >= 2 && 1 <= r < |table|
    ensures MarkdownLines(table)[..r + 2] == MarkdownLines(table)[..r + 1] + [DataLine(table[r], |table[0]|)]
  {
    Sequences.PrefixStep(MarkdownLines(table), r + 1);
  }

  /** The value `table_to_markdown` returns. */
  function Markdown(table: seq<seq<Value>>): string
  {
    if |table| < 2 then "" else Join("\n", MarkdownLines(table))
  }

  /** `table_to_markdown`, building the list of lines one row at a time. */
  method TableToMarkdown(tableData: seq<seq<Value>>) returns (md: string)
    ensures |tableData| < 2 ==> md == ""
    ensures |tableData| >= 2 ==> md == Join("\n", MarkdownLines(tableData))
  {
    if |tableData| < 2 {
      return "";
    }
    ghost var lines := MarkdownLines(tableData);
    var markdown: seq<string> := [];
    var headers := tableData[0];
    markdown := markdown + [RowLine(CellTexts(headers))];
    markdown := markdown + [RowLine(Separator(|headers|))];
    for r := 1 to |tableData|
      invariant markdown == lines[..r + 1]
    {
      MarkdownLinesPrefix(tableData, r);
      var paddedRow := FitRow(tableData[r], |headers|);
      markdown := markdown + [RowLine(CellTexts(paddedRow))];
    }
    assert lines[..|tableData| + 1] == lines;
    md := Join("\n", markdown);
  }

  /**
   * The rows `extract_docx_table` collects: every cell's text, stripped, so
   * that no cell starts or ends with whitespace any more.
   */
  function StrippedRows(rows: seq<seq<string>>): (r: seq<seq<Value>>)
    ensures |r| == |rows|
    ensures forall i :: 0 <= i < |rows| ==> |r[i]| == |rows[i]|
    ensures forall i, j :: 0 <= i < |rows| && 0 <= j < |rows[i]| ==> r[i][j] == PyStr(Strip(rows[i][j]))
    ensures forall i, j :: 0 <= i < |r| && 0 <= j < |r[i]| ==> r[i][j].PyStr? && Strip(r[i][j].s) == r[i][j].s
  {
    StripsOnce(rows);
    seq(|rows|, i requires 0 <= i < |rows| =>
      seq(|rows[i]|, j requires 0 <= j < |rows[i]| => PyStr(Strip(rows[i][j]))))
  }

  lemma StripsOnce(rows: seq<seq<string>>)
    ensures forall i, j :: 0 <= i < |rows| && 0 <= j < |rows[i]| ==> Strip(Strip(rows[i][j])) == Strip(rows[i][j])
  {
    forall i, j | 0 <= i < |rows| && 0 <= j < |rows[i]| ensures Strip(Strip(rows[i][j])) == Strip(rows[i][j]) {
      StripIdempotent(rows[i][j]);
    }
  }

  /** `extract_docx_table`: a table given as the raw texts of its cells, row by row. */
  method ExtractDocxTable(rows: seq<seq<string>>) returns (md: string)
    ensures |rows| < 2 ==> md == ""
    ensures |rows| >= 2 ==> md == Join("\n", MarkdownLines(StrippedRows(rows)))
  {
    var tableData: seq<seq<Value>> := [];
    for i := 0 to |rows|
      invariant tableData == StrippedRows(rows)[..i]
    {
      var rowData := seq(|rows[i]|, j requires 0 <= j < |rows[i]| => PyStr(Strip(rows[i][j])));
      tableData := tableData + [rowData];
    }
    assert tableData == StrippedRows(rows);
    if |tableData| >= 2 {
      md := TableToMarkdown(tableData);
    } else {
      md := "";
    }
  }

  /** Which tables give no Markdown: exactly those of fewer than two rows. */
  lemma MarkdownEmptyIff(table: seq<seq<Value>>)
    ensures Markdown(table) == "" <==> |table| < 2
  {
    if |table| >= 2 {
      var lines := MarkdownLines(table);
      assert Join("\n", lines) == Join("\n", lines[..|lines| - 1]) + "\n" + lines[|lines| - 1];
    }
  }
}
