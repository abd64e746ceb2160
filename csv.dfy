/**
 * The comma-separated text both attendee exports build: cells joined by ',' into a line,
 * lines joined by a line break, no quoting. A cell holding neither a comma nor a line
 * break reads back unchanged.
 */
module Csv {
  import opened Text

  /** The data-URI prefix put in front of the text before it is offered as a download. */
  const DataPrefix: string := "data:text/csv;charset=utf-8,"

  /** What follows the prefix is the text itself. */
  lemma AfterPrefix(text: string)
    ensures (DataPrefix + text)[|DataPrefix|..] == text
  {
  }

  /** A cell that survives the export unquoted: it holds no comma and no line break. */
  predicate Plain(cell: string)
  {
    ',' !in cell && '\n' !in cell
  }

  /** `cells.join(",")`. */
  function Line(cells: seq<string>): string
  {
    Join(cells, ",")
  }

  /** A line of plain cells holds no line break and splits on ',' back into its cells. */
  lemma LineCells(cells: seq<string>)
    requires |cells| >= 1
    requires forall i :: 0 <= i < |cells| ==> Plain(cells[i])
    ensures SplitOn(Line(cells), ',') == cells
    ensures '\n' !in Line(cells)
  {
    assert "," == [','];
    SplitJoin(cells, ',');
    JoinAvoids(cells, ",", '\n');
  }

  /** A header line, a line break, then the rows joined by line breaks. */
  function HeaderThenRowsText(header: string, rows: seq<string>): string
  {
    header + "\n" + Join(rows, "\n")
  }

  /**
   * A header line followed by a line break and the rows joined by line breaks splits back
   * into the header and the rows, plus an empty last line when there are no rows.
   */
  lemma HeaderThenRows(header: string, rows: seq<string>)
    requires '\n' !in header
    requires forall i :: 0 <= i < |rows| ==> '\n' !in rows[i]
    ensures SplitOn(HeaderThenRowsText(header, rows), '\n') ==
            [header] + rows + (if rows == [] then [""] else [])
  {
    if rows == [] {
      assert header + "\n" + Join(rows, "\n") == header + ['\n'] + "";
      SplitAfterPiece(header, "", '\n');
    } else {
      JoinAppend([header], rows, "\n");
      var all := [header] + rows;
      forall i | 0 <= i < |all| ensures '\n' !in all[i] {
        if i > 0 {
          assert all[i] == rows[i - 1];
        }
      }
      SplitJoin(all, '\n');
    }
  }

  /** Lines joined by line breaks, none of which holds one, split back into those lines. */
  lemma JoinedLines(header: string, rows: seq<string>)
    requires '\n' !in header
    requires forall i :: 0 <= i < |rows| ==> '\n' !in rows[i]
    ensures SplitOn(Join([header] + rows, "\n"), '\n') == [header] + rows
    ensures SplitOn((DataPrefix + Join([header] + rows, "\n"))[|DataPrefix|..], '\n') == [header] + rows
  {
    AfterPrefix(Join([header] + rows, "\n"));
    var all := [header] + rows;
    forall i | 0 <= i < |all| ensures '\n' !in all[i] {
      if i > 0 {
        assert all[i] == rows[i - 1];
      }
    }
    SplitJoin(all, '\n');
  }

  /** No line of `rows` contains a line break. */
  predicate SingleLines(rows: seq<string>)
  {
    forall i :: 0 <= i < |rows| ==> '\n' !in rows[i]
  }

  /** A text made of the data-URI prefix and single lines splits, after the prefix, into those lines. */
  lemma PrefixedLines(header: string, rows: seq<string>, text: string)
    requires '\n' !in header
    requires SingleLines(rows)
    requires text == DataPrefix + Join([header] + rows, "\n")
    ensures SplitOn(text[|DataPrefix|..], '\n') == [header] + rows
  {
    JoinedLines(header, rows);
  }
}
