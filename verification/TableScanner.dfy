/**
  internal/extractor/atcoder.go: the scanner of the AtCoder contest table, on a
  page that has already been fetched, and its inverse, a printer of such tables.
 */
module TableScanner {
  import opened Common
  import opened Strings
  import opened ContestStore
  import Ids

  // ---------- extractCells ----------

  /** The content of the first cell, and the text after it. */
  function NextCell(row: string): (r: Option<(string, string)>)
    ensures r.Some? ==> |r.value.1| < |row|
  {
    var td := IndexFrom(row, "<td", 0);
    if td < 0 then None else
    var close := IndexFrom(row, ">", td);
    if close < 0 then None else
    var end := IndexFrom(row, "</td>", close + 1);
    if end < 0 then None else Some((row[close + 1..end], row[end + 5..]))
  }

  function Cells(row: string): seq<string>
    decreases |row|
  {
    match NextCell(row)
    case None => []
    case Some((content, rest)) => [content] + Cells(rest)
  }

  method ExtractCells(row: string) returns (cells: seq<string>)
    ensures cells == Cells(row)
  {
    cells := [];
    var rest := row;
    while true
      invariant cells + Cells(rest) == Cells(row)
      decreases |rest|
    {
      var next := NextCell(rest);
      if next.None? {
        break;
      }
      cells := cells + [next.value.0];
      rest := next.value.1;
    }
  }

  /** A cell as the page has it: text before the tag, the tag's attributes, the content. */
  datatype Cell = Cell(sep: string, attrs: string, content: string)

  function PrintCell(c: Cell): string {
    c.sep + "<td" + c.attrs + ">" + c.content + "</td>"
  }

  function PrintCells(cells: seq<Cell>, tail: string): string {
    if cells == [] then tail else PrintCell(cells[0]) + PrintCells(cells[1..], tail)
  }

  ghost predicate CellOk(c: Cell) {
    !Contains(c.sep, "<td") && !Contains(c.attrs, ">") && !Contains(c.content, "</td>")
  }

  function Contents(cells: seq<Cell>): seq<string> {
    if cells == [] then [] else [cells[0].content] + Contents(cells[1..])
  }

  /** Scanning a printed cell finds its content and stops right after it. */
  lemma FirstCell(c: Cell, rest: string, row: string)
    requires CellOk(c)
    requires row == PrintCell(c) + rest
    ensures NextCell(row) == Some((c.content, rest))
  {
    var td, close, end := CellPositions(c, rest, row);
    NextCellFrom(row, td, close, end);
  }

  lemma CellPositions(c: Cell, rest: string, row: string) returns (td: nat, close: nat, end: nat)
    requires CellOk(c)
    requires row == PrintCell(c) + rest
    ensures td <= close < end <= |row| - 5
    ensures IndexFrom(row, "<td", 0) == td
    ensures IndexFrom(row, ">", td) == close
    ensures IndexFrom(row, "</td>", close + 1) == end
    ensures row[close + 1..end] == c.content && row[end + 5..] == rest
  {
    td, close := |c.sep|, |c.sep| + 3 + |c.attrs|;
    end := close + 1 + |c.content|;
    TagAt(c, rest, row, td);
    BracketAt(c, rest, row, td, close);
    ContentAt(c, rest, row, close + 1, end);
  }

  lemma TagAt(c: Cell, rest: string, row: string, td: nat)
    requires CellOk(c) && row == PrintCell(c) + rest && td == |c.sep|
    ensures IndexFrom(row, "<td", 0) == td
  {
    var after := c.attrs + ">" + c.content + "</td>" + rest;
    assert row == "" + c.sep + "<td" + after;
    Found(row, 0, td, "", c.sep, "<td", after);
  }

  lemma BracketAt(c: Cell, rest: string, row: string, td: nat, close: nat)
    requires CellOk(c) && row == PrintCell(c) + rest && td == |c.sep| && close == td + 3 + |c.attrs|
    ensures td <= |row| && IndexFrom(row, ">", td) == close
  {
    var after := c.content + "</td>" + rest;
    assert row == c.sep + ("<td" + c.attrs) + ">" + after;
    AttrsEndAtBracket(c.attrs);
    Found(row, td, close, c.sep, "<td" + c.attrs, ">", after);
  }

  lemma ContentAt(c: Cell, rest: string, row: string, start: nat, end: nat)
    requires CellOk(c) && row == PrintCell(c) + rest
    requires start == |c.sep| + 3 + |c.attrs| + 1 && end == start + |c.content|
    ensures end + 5 <= |row| && IndexFrom(row, "</td>", start) == end
    ensures row[start..end] == c.content && row[end + 5..] == rest
  {
    var head := c.sep + "<td" + c.attrs + ">";
    assert row == head + c.content + "</td>" + rest;
    Found(row, start, end, head, c.content, "</td>", rest);
  }

  lemma NextCellFrom(row: string, td: nat, close: nat, end: nat)
    requires td <= close < end <= |row| - 5
    requires IndexFrom(row, "<td", 0) == td
    requires IndexFrom(row, ">", td) == close
    requires IndexFrom(row, "</td>", close + 1) == end
    ensures NextCell(row) == Some((row[close + 1..end], row[end + 5..]))
  {
  }

  lemma AttrsEndAtBracket(attrs: string)
    requires !Contains(attrs, ">")
    ensures !Contains("<td" + attrs, ">")
  {
    forall i: nat ensures !At("<td", ">", i) {
      assert i < 3 ==> "<td"[i + 0] != ">"[0];
    }
    NoOccurrenceInConcat("<td", attrs, ">");
  }

  /** extractCells inverts the row printer. */
  lemma {:induction false} CellsOfPrintedRow(cells: seq<Cell>, tail: string)
    requires forall c :: c in cells ==> CellOk(c)
    requires !Contains(tail, "<td")
    ensures Cells(PrintCells(cells, tail)) == Contents(cells)
    decreases |cells|
  {
    if cells != [] {
      FirstCell(cells[0], PrintCells(cells[1..], tail), PrintCells(cells, tail));
      CellsOfPrintedRow(cells[1..], tail);
    }
  }

  // ---------- The row loop ----------

  /** The text of the first row, and the table after it. */
  function NextRow(table: string): (r: Option<(string, string)>)
    ensures r.Some? ==> |r.value.1| < |table|
  {
    var tr := IndexFrom(table, "<tr>", 0);
    if tr < 0 then None else
    var end := IndexFrom(table, "</tr>", tr + 4);
    if end < 0 then None else Some((table[tr + 4..end], table[end + 5..]))
  }

  datatype Row = Row(sep: string, cells: seq<Cell>, tail: string)

  function RowText(r: Row): string {
    PrintCells(r.cells, r.tail)
  }

  function PrintRows(rows: seq<Row>, trailer: string): string {
    if rows == [] then trailer
    else rows[0].sep + "<tr>" + RowText(rows[0]) + "</tr>" + PrintRows(rows[1..], trailer)
  }

  ghost predicate RowOk(r: Row) {
    && !Contains(r.sep, "<tr>")
    && (forall c :: c in r.cells ==> CellOk(c) && NoRowEnd(c))
    && !Contains(r.tail, "<td") && !Contains(r.tail, "</tr>")
  }

  /** No piece of the cell ends the row, and the tag's own bracket does not complete a "</tr>". */
  ghost predicate NoRowEnd(c: Cell) {
    && !Contains(c.sep, "</tr>") && !Contains(c.content, "</tr>")
    && !(|c.attrs| >= 4 && c.attrs[|c.attrs| - 4..] == "</tr")
  }

  /** The row loop takes a row's own text exactly when that text holds no "</tr>". */
  lemma NextRowExact(sep: string, text: string, rest: string, table: string)
    requires !Contains(sep, "<tr>")
    requires table == sep + "<tr>" + text + "</tr>" + rest
    ensures NextRow(table) == Some((text, rest)) <==> !Contains(text, "</tr>")
  {
    if Contains(text, "</tr>") {
      RowEndsEarly(sep, text, rest, table);
    } else {
      FirstRow(sep, text, rest, table);
    }
  }

  lemma RowEndsEarly(sep: string, text: string, rest: string, table: string)
    requires !Contains(sep, "<tr>") && Contains(text, "</tr>")
    requires table == sep + "<tr>" + text + "</tr>" + rest
    ensures NextRow(table).Some? && |NextRow(table).value.0| < |text|
  {
    var tr := |sep|;
    var i := Occurrence(text, "</tr>");
    RowTagAt(table, sep, tr, text + "</tr>" + rest);
    ShiftedOccurrence(table, sep + "<tr>", text, "</tr>" + rest, "</tr>", i);
    EarlierEnd(table, tr, tr + 4 + i);
  }

  lemma Occurrence(text: string, sub: string) returns (i: nat)
    requires Contains(text, sub)
    ensures At(text, sub, i)
  {
    i :| At(text, sub, i);
  }

  lemma ShiftedOccurrence(s: string, pre: string, text: string, post: string, sub: string, i: nat)
    requires s == pre + text + post && At(text, sub, i)
    ensures At(s, sub, |pre| + i)
  {
  }

  lemma EarlierEnd(table: string, tr: nat, at: nat)
    requires tr + 4 <= at && IndexFrom(table, "<tr>", 0) == tr && tr + 4 <= |table| && At(table, "</tr>", at)
    ensures NextRow(table).Some? && |NextRow(table).value.0| <= at - (tr + 4)
  {
    var end := IndexFrom(table, "</tr>", tr + 4);
    assert First(table, "</tr>", tr + 4, end);
  }

  lemma FirstRow(sep: string, text: string, rest: string, table: string)
    requires !Contains(sep, "<tr>") && !Contains(text, "</tr>")
    requires table == sep + "<tr>" + text + "</tr>" + rest
    ensures NextRow(table) == Some((text, rest))
  {
    var tr, end := RowPositions(sep, text, rest, table);
    NextRowFrom(table, tr, end);
  }

  lemma RowPositions(sep: string, text: string, rest: string, table: string) returns (tr: nat, end: nat)
    requires !Contains(sep, "<tr>") && !Contains(text, "</tr>")
    requires table == sep + "<tr>" + text + "</tr>" + rest
    ensures tr + 4 <= end <= |table| - 5
    ensures IndexFrom(table, "<tr>", 0) == tr
    ensures IndexFrom(table, "</tr>", tr + 4) == end
    ensures table[tr + 4..end] == text && table[end + 5..] == rest
  {
    tr, end := |sep|, |sep| + 4 + |text|;
    RowTagAt(table, sep, tr, text + "</tr>" + rest);
    Found(table, tr + 4, end, sep + "<tr>", text, "</tr>", rest);
  }

  lemma RowTagAt(table: string, sep: string, tr: nat, after: string)
    requires !Contains(sep, "<tr>") && tr == |sep|
    requires table == sep + "<tr>" + after
    ensures IndexFrom(table, "<tr>", 0) == tr
  {
    assert table == "" + sep + "<tr>" + after;
    Found(table, 0, tr, "", sep, "<tr>", after);
  }

  lemma NextRowFrom(table: string, tr: nat, end: nat)
    requires tr + 4 <= end <= |table| - 5
    requires IndexFrom(table, "<tr>", 0) == tr
    requires IndexFrom(table, "</tr>", tr + 4) == end
    ensures NextRow(table) == Some((table[tr + 4..end], table[end + 5..]))
  {
  }

  const ROW_END: string := "</tr>"

  /** Gluing two pieces does not make a "</tr>" when the seam has a character that cannot be inside it. */
  lemma GlueKeepsRow(a: string, b: string)
    requires !Contains(a, ROW_END) && !Contains(b, ROW_END)
    requires (a != "" ==> a[|a| - 1] == '>' || a[|a| - 1] == 'd') || (b != "" ==> b[0] == '<')
    ensures !Contains(a + b, ROW_END)
  {
    forall k: nat ensures !Straddles(a, b, ROW_END, k) {
      if 0 < k < 5 && k <= |a| && 5 - k <= |b| {
        assert a[|a| - k..][k - 1] == a[|a| - 1] && b[..5 - k][0] == b[0];
        assert ROW_END[..k][k - 1] == ROW_END[k - 1] && ROW_END[k..][0] == ROW_END[k];
      }
    }
    NoOccurrenceInConcat(a, b, ROW_END);
  }

  lemma GlueBracket(attrs: string)
    requires !Contains(attrs, ">")
    requires !(|attrs| >= 4 && attrs[|attrs| - 4..] == "</tr")
    ensures !Contains(attrs + ">", ROW_END)
  {
    forall i: nat | At(attrs, ROW_END, i) ensures At(attrs, ">", i + 4) {
      assert attrs[i + 4] == ROW_END[4];
    }
    forall k: nat ensures !Straddles(attrs, ">", ROW_END, k) {
      assert ROW_END[..4] == "</tr";
    }
    NoOccurrenceInConcat(attrs, ">", ROW_END);
  }

  lemma CellEndIsNoRowEnd()
    ensures !Contains("</td>", ROW_END) && !Contains("<td", ROW_END)
  {
    forall i: nat ensures !At("</td>", ROW_END, i) && !At("<td", ROW_END, i) {
      assert i == 0 ==> "</td>"[i..i + 5][3] != ROW_END[3];
    }
  }

  lemma CellKeepsRow(c: Cell, rest: string)
    requires CellOk(c) && NoRowEnd(c)
    requires !Contains(rest, ROW_END)
    ensures !Contains(PrintCell(c) + rest, ROW_END)
  {
    CellEndIsNoRowEnd();
    GlueKeepsRow("</td>", rest);
    GlueKeepsRow(c.content, "</td>" + rest);
    GlueBracket(c.attrs);
    GlueKeepsRow(c.attrs + ">", c.content + ("</td>" + rest));
    GlueKeepsRow("<td", c.attrs + ">" + (c.content + ("</td>" + rest)));
    var tag := "<td" + (c.attrs + ">" + (c.content + ("</td>" + rest)));
    GlueKeepsRow(c.sep, tag);
    assert PrintCell(c) + rest == c.sep + tag;
  }

  lemma CellEndsRow(c: Cell)
    requires !NoRowEnd(c)
    ensures Contains(PrintCell(c), ROW_END)
  {
    if Contains(c.sep, ROW_END) {
      InsideConcat("", c.sep, "<td" + c.attrs + ">" + c.content + "</td>", ROW_END);
      assert PrintCell(c) == "" + c.sep + ("<td" + c.attrs + ">" + c.content + "</td>");
    } else if Contains(c.content, ROW_END) {
      InsideConcat(c.sep + "<td" + c.attrs + ">", c.content, "</td>", ROW_END);
    } else {
      var before := c.sep + "<td" + c.attrs[..|c.attrs| - 4];
      assert c.attrs == c.attrs[..|c.attrs| - 4] + "</tr";
      assert At(ROW_END, ROW_END, 0);
      InsideConcat(before, ROW_END, c.content + "</td>", ROW_END);
      assert PrintCell(c) == before + ROW_END + (c.content + "</td>");
    }
  }

  /** A printed row holds no "</tr>" of its own exactly when its tail has none and no cell makes one. */
  lemma {:induction false} RowTextExact(cells: seq<Cell>, tail: string)
    requires forall c :: c in cells ==> CellOk(c)
    ensures !Contains(PrintCells(cells, tail), ROW_END) <==>
              !Contains(tail, ROW_END) && forall c :: c in cells ==> NoRowEnd(c)
    decreases |cells|
  {
    if cells != [] {
      var rest := PrintCells(cells[1..], tail);
      RowTextExact(cells[1..], tail);
      assert cells == [cells[0]] + cells[1..];
      if Contains(rest, ROW_END) {
        InsideConcat(PrintCell(cells[0]), rest, "", ROW_END);
        assert PrintCell(cells[0]) + rest + "" == PrintCells(cells, tail);
      } else if NoRowEnd(cells[0]) {
        CellKeepsRow(cells[0], rest);
      } else {
        CellEndsRow(cells[0]);
        InsideConcat("", PrintCell(cells[0]), rest, ROW_END);
        assert "" + PrintCell(cells[0]) + rest == PrintCells(cells, tail);
      }
    }
  }

  /** A printed row is scanned as it was printed exactly when its tail has no "</tr>" and no cell makes one. */
  lemma RowScanExact(r: Row, rest: string, table: string)
    requires !Contains(r.sep, "<tr>") && forall c :: c in r.cells ==> CellOk(c)
    requires table == r.sep + "<tr>" + RowText(r) + "</tr>" + rest
    ensures NextRow(table) == Some((RowText(r), rest)) <==>
              !Contains(r.tail, ROW_END) && forall c :: c in r.cells ==> NoRowEnd(c)
  {
    NextRowExact(r.sep, RowText(r), rest, table);
    RowTextExact(r.cells, r.tail);
  }

  /** Attributes without ">" are not enough: one that ends in "</tr" makes the tag's bracket end the
      row, and the row loop finds no cell where there is one. */
  lemma AttributeCanEndTheRow(ofRow: seq<string> -> seq<Contest>)
    ensures
      var r := Row("", [Cell("", "</tr", "x")], "");
      var table := PrintRows([r], "");
      && CellOk(r.cells[0]) && Contents(r.cells) == ["x"]
      && NextRow(table) == Some(("<td", "x</td></tr>")) && Cells("<td") == []
      && TableContests(table, ofRow) == ofRow([]) && RowsContests([r], ofRow) == ofRow(["x"])
  {
    var c := Cell("", "</tr", "x");
    var r := Row("", [c], "");
    var table := PrintRows([r], "");
    BadCell(c);
    assert [r][1..] == [] && [c][1..] == [];
    BadTable(c, r, table);
    FreeOf("", "<tr>");
    CellEndIsNoRowEnd();
    FirstRow("", "<td", "x</td></tr>", table);
    NoCellInTag();
    NoRowIn("x</td></tr>");
    assert TableContests("x</td></tr>", ofRow) == [];
  }

  lemma BadTable(c: Cell, r: Row, table: string)
    requires c == Cell("", "</tr", "x") && r == Row("", [c], "") && table == PrintRows([r], "")
    ensures table == "" + "<tr>" + "<td" + "</tr>" + "x</td></tr>"
  {
    assert [r][1..] == [] && [c][1..] == [];
    assert PrintCells([c], "") == PrintCell(c) + PrintCells([c][1..], "");
    assert PrintRows([r], "") == "" + "<tr>" + RowText(r) + "</tr>" + PrintRows([r][1..], "");
    assert RowText(r) == "" + "<td" + "</tr" + ">" + "x" + "</td>" + "";
    assert "</tr" + ">" == "</tr>";
    assert "x" + "</td>" + "" + "</tr>" + "" == "x</td></tr>";
  }

  lemma BadCell(c: Cell)
    requires c == Cell("", "</tr", "x")
    ensures CellOk(c) && Contents([c]) == ["x"]
  {
    assert [c][1..] == [];
    FreeOf("", "<td");
    FreeOf("</tr", ">");
    FreeOf("x", "</td>");
  }

  lemma NoCellInTag()
    ensures Cells("<td") == []
  {
    FreeOf("<td", ">");
    forall i: nat ensures !At("<td", ">", i) {
      assert !Contains("<td", ">");
    }
    assert IndexFrom("<td", ">", 0) == -1;
  }

  lemma RowTagStarts(s: string)
    ensures var r := IndexFrom(s, "<tr>", 0); r >= 0 ==> r + 4 <= |s| && s[r] == '<' && s[r + 1] == 't'
  {
    var r := IndexFrom(s, "<tr>", 0);
    if r >= 0 {
      assert s[r + 0] == "<tr>"[0] && s[r + 1] == "<tr>"[1];
    }
  }

  lemma NoRowIn(s: string)
    requires s == "x</td></tr>"
    ensures NextRow(s) == None
  {
    RowTagStarts(s);
    forall i: nat | i + 4 <= |s| ensures s[i] == '<' ==> s[i + 1] == '/' {
      assert i == 0 || i == 1 || i == 2 || i == 3 || i == 4 || i == 5 || i == 6 || i == 7;
    }
    assert IndexFrom(s, "<tr>", 0) < 0;
  }

  // ---------- The contests on a page ----------

  /** What the program takes from elsewhere: time.Parse and strconv.Atoi. */
  datatype Library = Library(parseTime: string -> Option<int>, atoi: string -> int)

  /** The text from a position up to the next `d`; nothing when there is none. */
  function TextFrom(s: string, start: nat, d: string): string
    requires start <= |s|
  {
    var end := Index(s[start..], d);
    if end < 0 then "" else s[start..start + end]
  }

  function ExtractHref(s: string): string {
    var h := Index(s, "href=\"");
    if h < 0 then "" else TextFrom(s, h + 6, "\"")
  }

  /** The text after the tag that starts at `a` and ends with the next `end`, up to the next `close`. */
  function AfterTag(s: string, a: nat, end: string, close: string): string
    requires a <= |s|
  {
    var i := Index(s[a..], end);
    if i < 0 then "" else TextFrom(s, a + i + |end|, close)
  }

  /** The text after the first tag that begins with `tag`. */
  function TagText(s: string, tag: string, end: string, close: string): string {
    var a := Index(s, tag);
    if a < 0 then "" else AfterTag(s, a, end, close)
  }

  function ExtractHrefText(s: string): string {
    TagText(s, "<a", ">", "</a>")
  }

  function UpTo(s: string, c: string): string {
    var i := Index(s, c);
    if i < 0 then s else s[..i]
  }

  /** The start time in a link, if it has one that can be parsed. */
  function StartTime(href: string, lib: Library): Option<int> {
    var iso := Index(href, "?iso=");
    if iso < 0 then None else lib.parseTime(UpTo(href[iso + 5..], "&"))
  }

  /** Hours and minutes around a colon, in seconds. */
  function Seconds(durationStr: string, lib: Library): Option<int> {
    var colon := Index(durationStr, ":");
    if colon < 0 then None
    else Some(lib.atoi(durationStr[..colon]) * 3600 + lib.atoi(durationStr[colon + 1..]) * 60)
  }

  /** The contest of a row with these four things; none when one of them is missing. */
  function ContestFrom(href: string, start: Option<int>, duration: Option<int>, name: string): Option<Contest> {
    if href == "" || start.None? || duration.None? || name == "" then None else
    Some(Contest(Ids.ContestId("atcoder", start.value), name, "https://atcoder.jp" + href,
                 start.value, start.value + duration.value, duration.value, "atcoder"))
  }

  /** The contest a row stands for, or None where the loop goes on to the next row. */
  function RowContest(cells: seq<string>, lib: Library): Option<Contest> {
    if |cells| < 3 then None else
    var href := ExtractHref(cells[0]);
    ContestFrom(href, StartTime(href, lib), Seconds(StripTags(cells[2]), lib), StripTags(ExtractHrefText(cells[1])))
  }

  function ContestOfRow(lib: Library): seq<string> -> seq<Contest> {
    cells => match RowContest(cells, lib) case None => [] case Some(c) => [c]
  }

  /** What the row loop collects from a table. */
  function TableContests(table: string, ofRow: seq<string> -> seq<Contest>): seq<Contest>
    decreases |table|
  {
    match NextRow(table)
    case None => []
    case Some((row, rest)) => ofRow(Cells(row)) + TableContests(rest, ofRow)
  }

  method ScanTable(text: string, ofRow: seq<string> -> seq<Contest>) returns (contests: seq<Contest>)
    ensures contests == TableContests(text, ofRow)
  {
    contests := [];
    var table := text;
    while true
      invariant contests + TableContests(table, ofRow) == TableContests(text, ofRow)
      decreases |table|
    {
      var next := NextRow(table);
      if next.None? {
        break;
      }
      var cells := ExtractCells(next.value.0);
      contests := contests + ofRow(cells);
      table := next.value.1;
    }
  }

  /** The position after the next "<tbody>", or -1. */
  function AfterBody(html: string, from: nat): (r: int)
    requires from <= |html|
    ensures r == -1 || from <= r <= |html|
  {
    var i := IndexFrom(html, "<tbody>", from);
    if i < 0 then -1 else i + 7
  }

  function UpToBodyEnd(html: string, from: nat): Option<string>
    requires from <= |html|
  {
    var end := IndexFrom(html, "</tbody>", from);
    if end < 0 then None else Some(html[from..end])
  }

  /** The table is the text between the second "<tbody>" and the next "</tbody>". */
  function FindTable(html: string): Option<string> {
    var first := AfterBody(html, 0);
    if first < 0 then None else
    var second := AfterBody(html, first);
    if second < 0 then None else UpToBodyEnd(html, second)
  }

  method FetchContests(html: string, lib: Library) returns (r: Option<seq<Contest>>)
    ensures FindTable(html).None? ==> r == None
    ensures FindTable(html).Some? ==> r == Some(TableContests(FindTable(html).value, ContestOfRow(lib)))
    ensures r.Some? ==> BatchOf("atcoder", r.value)
  {
    var table := FindTable(html);
    if table.None? {
      return None;
    }
    var contests := ScanTable(table.value, ContestOfRow(lib));
    FetchedIsBatch(table.value, lib);
    r := Some(contests);
  }

  /** What the fetcher returns is a batch of its platform: every contest is under its own id. */
  lemma {:induction false} FetchedIsBatch(table: string, lib: Library)
    ensures BatchOf("atcoder", TableContests(table, ContestOfRow(lib)))
    decreases |table|
  {
    var next := NextRow(table);
    if next.Some? {
      FetchedIsBatch(next.value.1, lib);
    }
  }

  /** The contests of the rows themselves, without any text. */
  function RowsContests(rows: seq<Row>, ofRow: seq<string> -> seq<Contest>): seq<Contest> {
    if rows == [] then [] else ofRow(Contents(rows[0].cells)) + RowsContests(rows[1..], ofRow)
  }

  /** Scanning a printed table gives the contests of its rows, in order. */
  lemma {:induction false} TableRoundTrip(rows: seq<Row>, trailer: string, ofRow: seq<string> -> seq<Contest>)
    requires forall r :: r in rows ==> RowOk(r)
    requires !Contains(trailer, "<tr>")
    ensures TableContests(PrintRows(rows, trailer), ofRow) == RowsContests(rows, ofRow)
    decreases |rows|
  {
    if rows != [] {
      var r := rows[0];
      assert r in rows;
      RowTextExact(r.cells, r.tail);
      FirstRow(r.sep, RowText(r), PrintRows(rows[1..], trailer), PrintRows(rows, trailer));
      CellsOfPrintedRow(r.cells, r.tail);
      TableRoundTrip(rows[1..], trailer, ofRow);
    } else {
      assert Index(trailer, "<tr>") == -1;
    }
  }

  /** A page with two table bodies, the second of them `table`. */
  function Page(pre: string, mid: string, table: string, post: string): string {
    pre + "<tbody>" + mid + "<tbody>" + table + "</tbody>" + post
  }

  ghost predicate PageOk(pre: string, mid: string, table: string) {
    !Contains(pre, "<tbody>") && !Contains(mid, "<tbody>") && !Contains(table, "</tbody>")
  }

  /** The table of a page is found between its tags. */
  lemma TableOnPage(pre: string, mid: string, table: string, post: string, html: string)
    requires PageOk(pre, mid, table) && html == Page(pre, mid, table, post)
    ensures FindTable(html) == Some(table)
  {
    var first := |pre| + 7;
    var second := first + |mid| + 7;
    FirstBodyAt(pre, mid, table, post, html, first);
    SecondBodyAt(pre, mid, table, post, html, first, second);
    TableAt(pre, mid, table, post, html, second);
  }

  lemma FirstBodyAt(pre: string, mid: string, table: string, post: string, html: string, first: nat)
    requires PageOk(pre, mid, table) && html == Page(pre, mid, table, post) && first == |pre| + 7
    ensures AfterBody(html, 0) == first
  {
    var after := mid + "<tbody>" + table + "</tbody>" + post;
    assert html == "" + pre + "<tbody>" + after;
    Found(html, 0, |pre|, "", pre, "<tbody>", after);
  }

  lemma SecondBodyAt(pre: string, mid: string, table: string, post: string, html: string, first: nat, second: nat)
    requires PageOk(pre, mid, table) && html == Page(pre, mid, table, post)
    requires first == |pre| + 7 && second == first + |mid| + 7
    ensures first <= |html| && AfterBody(html, first) == second
  {
    var after := table + "</tbody>" + post;
    assert html == (pre + "<tbody>") + mid + "<tbody>" + after;
    Found(html, first, first + |mid|, pre + "<tbody>", mid, "<tbody>", after);
  }

  lemma TableAt(pre: string, mid: string, table: string, post: string, html: string, second: nat)
    requires PageOk(pre, mid, table) && html == Page(pre, mid, table, post)
    requires second == |pre| + 7 + |mid| + 7
    ensures second <= |html| && UpToBodyEnd(html, second) == Some(table)
  {
    Found(html, second, second + |table|, pre + "<tbody>" + mid + "<tbody>", table, "</tbody>", post);
  }

  // ---------- stripTags ----------

  /** The characters outside tags. */
  function Visible(s: string, inTag: bool): string {
    if s == "" then ""
    else if s[0] == '<' then Visible(s[1..], true)
    else if s[0] == '>' then Visible(s[1..], false)
    else (if inTag then "" else [s[0]]) + Visible(s[1..], inTag)
  }

  predicate IsSpace(c: char) {
    c in "\t\n\r " || c as int in {0x0b, 0x0c, 0x85, 0xA0, 0x1680, 0x2028, 0x2029, 0x202f, 0x205f, 0x3000}
    || 0x2000 <= c as int <= 0x200a
  }

  /** strings.TrimSpace. */
  function TrimSpace(s: string): string {
    if s == "" then ""
    else if IsSpace(s[0]) then TrimSpace(s[1..])
    else if IsSpace(s[|s| - 1]) then TrimSpace(s[..|s| - 1])
    else s
  }

  function StripTags(s: string): string {
    TrimSpace(Visible(s, false))
  }

  method StripTagsLoop(s: string) returns (r: string)
    ensures r == StripTags(s)
  {
    var b := "";
    var inTag := false;
    assert s[0..] == s;
    for i := 0 to |s|
      invariant b + Visible(s[i..], inTag) == Visible(s, false)
    {
      assert s[i..][1..] == s[i + 1..];
      if s[i] == '<' {
        inTag := true;
      } else if s[i] == '>' {
        inTag := false;
      } else if !inTag {
        b := b + [s[i]];
      }
    }
    assert b == Visible(s, false);
    r := TrimSpace(b);
  }

  lemma {:induction false} VisibleHasNoBrackets(s: string, inTag: bool)
    ensures '<' !in Visible(s, inTag) && '>' !in Visible(s, inTag)
    decreases |s|
  {
    if s != "" {
      VisibleHasNoBrackets(s[1..], if s[0] == '<' then true else if s[0] == '>' then false else inTag);
    }
  }

  lemma {:induction false} VisibleOfPlainText(s: string)
    requires '<' !in s && '>' !in s
    ensures Visible(s, false) == s
    decreases |s|
  {
    if s != "" {
      VisibleOfPlainText(s[1..]);
      assert s == [s[0]] + s[1..];
    }
  }

  lemma {:induction false} TrimKeepsChars(s: string)
    ensures forall c :: c in TrimSpace(s) ==> c in s
    ensures TrimSpace(TrimSpace(s)) == TrimSpace(s)
    decreases |s|
  {
    if s != "" {
      if IsSpace(s[0]) {
        TrimKeepsChars(s[1..]);
      } else if IsSpace(s[|s| - 1]) {
        TrimKeepsChars(s[..|s| - 1]);
      }
    }
  }

  /** The stripped text has no angle brackets, and stripping it again changes nothing. */
  lemma StripTagsIdempotent(s: string)
    ensures '<' !in StripTags(s) && '>' !in StripTags(s)
    ensures StripTags(StripTags(s)) == StripTags(s)
  {
    var t := Visible(s, false);
    VisibleHasNoBrackets(s, false);
    TrimKeepsChars(t);
    VisibleOfPlainText(TrimSpace(t));
  }

  datatype Markup = Plain(text: string) | Tag(body: string)

  function PrintMarkup(ms: seq<Markup>): string {
    if ms == [] then ""
    else (match ms[0] case Plain(t) => t case Tag(b) => "<" + b + ">") + PrintMarkup(ms[1..])
  }

  function PlainText(ms: seq<Markup>): string {
    if ms == [] then "" else (if ms[0].Plain? then ms[0].text else "") + PlainText(ms[1..])
  }

  predicate NoBrackets(s: string) {
    '<' !in s && '>' !in s
  }

  /** On text with tags in it, what is kept is exactly the text. */
  lemma {:induction false} VisibleOfMarkup(ms: seq<Markup>)
    requires forall m :: m in ms ==> NoBrackets(if m.Plain? then m.text else m.body)
    ensures Visible(PrintMarkup(ms), false) == PlainText(ms)
    decreases |ms|
  {
    if ms != [] {
      VisibleOfMarkup(ms[1..]);
      var rest := PrintMarkup(ms[1..]);
      match ms[0]
      case Plain(t) =>
        VisiblePrefix(t, rest, false);
      case Tag(b) =>
        VisibleTag(b, rest);
    }
  }

  lemma VisibleTag(b: string, rest: string)
    requires NoBrackets(b)
    ensures Visible("<" + b + ">" + rest, false) == Visible(rest, false)
  {
    VisiblePrefix(b, ">" + rest, true);
    assert ("<" + b + ">" + rest)[1..] == b + (">" + rest);
    assert (">" + rest)[1..] == rest;
  }

  lemma {:induction false} VisiblePrefix(t: string, rest: string, inTag: bool)
    requires NoBrackets(t)
    ensures Visible(t + rest, inTag) == (if inTag then "" else t) + Visible(rest, inTag)
    decreases |t|
  {
    if t == "" {
      assert t + rest == rest;
    } else {
      assert (t + rest)[1..] == t[1..] + rest;
      VisiblePrefix(t[1..], rest, inTag);
    }
  }
}
