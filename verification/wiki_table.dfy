/** `scrape_wikipedia_table` (wiki_table_scraper.py): choosing a table,
    its headers and its data rows. The HTTP response and the parsed page
    are inputs; each row is given as the raw texts of its `th` and `td`
    cells, and the model applies `str.strip()` to them itself. */
module WikiTable {
  import opened Common
  import opened Text

  /** One `tr`: the `.text` of each `th` and of each `td` cell, in order. */
  datatype Row = Row(th: seq<string>, td: seq<string>)

  type Table = seq<Row>

  /** A parsed page: the text of its `title` element, if any, and its tables. */
  datatype WikiPage = WikiPage(title: Option<string>, tables: seq<Table>)

  /** The exceptions `scrape_wikipedia_table` raises before building the frame. */
  datatype TableError =
    | HttpError                                 // requests.get / raise_for_status
    | NoTitle                                   // `soup.title` is None
    | NoTables
    | IndexOutOfRange(index: nat, count: nat)
    | NoRows

  /** The header names and data rows handed to the data frame. */
  datatype TableData = TableData(headers: seq<string>, data: seq<seq<string>>)

  datatype TableResult = Extracted(table: TableData) | TableFailure(error: TableError)

  function StripAll(cells: seq<string>): (r: seq<string>)
    ensures |r| == |cells|
    ensures forall i :: 0 <= i < |r| ==> r[i] == Strip(cells[i])
  {
    seq(|cells|, i requires 0 <= i < |cells| => Strip(cells[i]))
  }

  /** The data loop: the stripped `td` texts of every row that has at least
      one `td`, in table order. */
  function DataRows(rows: seq<Row>): (d: seq<seq<string>>)
    ensures |d| <= |rows|
    ensures forall i :: 0 <= i < |d| ==> |d[i]| > 0
  {
    if |rows| == 0 then []
    else
      var rest := DataRows(rows[1..]);
      if |rows[0].td| > 0 then [StripAll(rows[0].td)] + rest else rest
  }

  /** Strictly increasing indices in `[lo, hi)`. */
  ghost predicate IncreasingWithin(idx: seq<nat>, lo: nat, hi: nat) {
    && (forall i :: 0 <= i < |idx| ==> lo <= idx[i] < hi)
    && (forall i, j :: 0 <= i < j < |idx| ==> idx[i] < idx[j])
  }

  /** Each `data[i]` is the stripped `td` texts of row `idx[i]`. */
  ghost predicate Picks(rows: seq<Row>, data: seq<seq<string>>, idx: seq<nat>) {
    && |idx| == |data|
    && forall i :: 0 <= i < |idx| ==> idx[i] < |rows| && data[i] == StripAll(rows[idx[i]].td)
  }

  /** Every row from `lo` on that has a `td` cell is among `idx`. */
  ghost predicate Covers(rows: seq<Row>, idx: seq<nat>, lo: nat) {
    forall j :: lo <= j < |rows| && |rows[j].td| > 0 ==> j in idx
  }

  /** One step of the data loop at row `skip`. */
  lemma DataRowsUnfold(rows: seq<Row>, skip: nat)
    requires skip < |rows|
    ensures DataRows(rows[skip..])
            == (if |rows[skip].td| > 0 then [StripAll(rows[skip].td)] else []) + DataRows(rows[skip + 1..])
  {
  }

  /** Putting `skip` in front of indices above it keeps them increasing. */
  lemma ConsIncreasing(rest: seq<nat>, skip: nat, hi: nat)
    requires skip < hi && IncreasingWithin(rest, skip + 1, hi)
    ensures IncreasingWithin([skip] + rest, skip, hi)
  {
  }

  /** A data row taken from row `skip` extends a valid tracing. */
  lemma ConsPicks(rows: seq<Row>, skip: nat, data: seq<seq<string>>, rest: seq<nat>)
    requires skip < |rows| && Picks(rows, data, rest)
    ensures Picks(rows, [StripAll(rows[skip].td)] + data, [skip] + rest)
  {
  }

  /** Adding row `skip` extends the coverage down to `skip`. */
  lemma ConsCovers(rows: seq<Row>, rest: seq<nat>, skip: nat)
    requires Covers(rows, rest, skip + 1)
    ensures Covers(rows, [skip] + rest, skip)
  {
  }

  /** The data rows of the rows from `skip` on, each traced back to its row
      of the whole table: the rows that have `td` cells, in table order. */
  lemma {:induction false} SuffixSources(rows: seq<Row>, skip: nat) returns (idx: seq<nat>)
    requires skip <= |rows|
    ensures IncreasingWithin(idx, skip, |rows|)
    ensures Picks(rows, DataRows(rows[skip..]), idx)
    ensures Covers(rows, idx, skip)
    decreases |rows| - skip
  {
    if skip == |rows| {
      return [];
    }
    var rest := SuffixSources(rows, skip + 1);
    DataRowsUnfold(rows, skip);
    if |rows[skip].td| > 0 {
      idx := [skip] + rest;
      ConsIncreasing(rest, skip, |rows|);
      ConsPicks(rows, skip, DataRows(rows[skip + 1..]), rest);
      ConsCovers(rows, rest, skip);
    } else {
      idx := rest;
    }
  }

  /** `DataRows` keeps exactly the rows that have `td` cells, in order: the
      returned indices pick each data row's source row, and every row with
      a `td` cell is picked. */
  lemma DataRowsSources(rows: seq<Row>) returns (idx: seq<nat>)
    ensures |idx| == |DataRows(rows)|
    ensures IncreasingWithin(idx, 0, |rows|)
    ensures forall i :: 0 <= i < |idx| ==> DataRows(rows)[i] == StripAll(rows[idx[i]].td)
    ensures forall j :: 0 <= j < |rows| && |rows[j].td| > 0 ==> j in idx
  {
    assert rows[0..] == rows;
    idx := SuffixSources(rows, 0);
  }

  /** The rows of the requested table, or the error raised on the way to
      them. */
  datatype Selection = Selected(rows: Table) | NotSelected(error: TableError)

  /** The steps before header extraction: the page request, its title, the
      table lookup by index and the table's rows. */
  function SelectTable(fetched: Option<WikiPage>, tableIndex: nat): (s: Selection)
    ensures fetched.None? ==> s == NotSelected(HttpError)
    ensures fetched.Some? && fetched.value.title.None? ==> s == NotSelected(NoTitle)
    ensures fetched.Some? && fetched.value.title.Some? ==>
              var tables := fetched.value.tables;
              && (|tables| == 0 ==> s == NotSelected(NoTables))
              && (0 < |tables| <= tableIndex ==> s == NotSelected(IndexOutOfRange(tableIndex, |tables|)))
              && (tableIndex < |tables| && |tables[tableIndex]| == 0 ==> s == NotSelected(NoRows))
              && (tableIndex < |tables| && |tables[tableIndex]| > 0 ==> s == Selected(tables[tableIndex]))
    ensures s.Selected? ==> |s.rows| > 0
  {
    if fetched.None? then NotSelected(HttpError)
    else if fetched.value.title.None? then NotSelected(NoTitle)
    else
      var tables := fetched.value.tables;
      if |tables| == 0 then NotSelected(NoTables)
      else if tableIndex >= |tables| then NotSelected(IndexOutOfRange(tableIndex, |tables|))
      else if |tables[tableIndex]| == 0 then NotSelected(NoRows)
      else Selected(tables[tableIndex])
  }

  /** The header texts: the stripped `th` cells of the first row, or, when
      it has none, its stripped `td` cells. */
  function Headers(first: Row): (h: seq<string>)
    ensures |first.th| > 0 ==> h == StripAll(first.th)
    ensures |first.th| == 0 ==> h == StripAll(first.td)
    ensures h == [] <==> |first.th| == 0 && |first.td| == 0
  {
    var thHeaders := StripAll(first.th);
    if thHeaders != [] then thHeaders else StripAll(first.td)
  }

  /** `scrape_wikipedia_table` up to the data frame, for an explicit table
      index, as written. `fetched` is `None` when the request or
      `raise_for_status` fails. When the first row has no `th` cells its
      row is dropped after taking the `td` headers, and if those headers are
      non-empty the loop then skips one more row. */
  function ScrapeTable(fetched: Option<WikiPage>, tableIndex: nat): (r: TableResult)
    ensures r.TableFailure? <==> SelectTable(fetched, tableIndex).NotSelected?
    ensures r.TableFailure? ==> r.error == SelectTable(fetched, tableIndex).error
    ensures r.Extracted? ==>
              && fetched.Some? && fetched.value.title.Some?
              && tableIndex < |fetched.value.tables|
              && var rows := fetched.value.tables[tableIndex];
                 && |rows| > 0
                 && |r.table.data| <= |rows| - 1
                 && (|rows[0].th| > 0 ==>
                       r.table.headers == StripAll(rows[0].th) && r.table.data == DataRows(rows[1..]))
                 && (|rows[0].th| == 0 && |rows[0].td| > 0 ==>
                       r.table.headers == StripAll(rows[0].td)
                       && r.table.data == (if |rows| >= 2 then DataRows(rows[2..]) else []))
                 && (|rows[0].th| == 0 && |rows[0].td| == 0 ==>
                       r.table.headers == [] && r.table.data == DataRows(rows[1..]))
  {
    match SelectTable(fetched, tableIndex)
    case NotSelected(e) => TableFailure(e)
    case Selected(rows) =>
      var thHeaders := StripAll(rows[0].th);
      var headers := Headers(rows[0]);
      var remaining := if thHeaders != [] then rows else rows[1..];
      var candidates := if headers != [] then (if |remaining| > 0 then remaining[1..] else []) else remaining;
      assert thHeaders == [] && headers != [] && |rows| >= 2 ==> candidates == rows[2..];
      Extracted(TableData(headers, DataRows(candidates)))
  }

  /** The evidently intended reading: the header row, whichever cells it
      used, is skipped once and every later row is considered. */
  function ScrapeTableCorrected(fetched: Option<WikiPage>, tableIndex: nat): (r: TableResult)
    ensures r.TableFailure? <==> SelectTable(fetched, tableIndex).NotSelected?
    ensures r.TableFailure? ==> r.error == SelectTable(fetched, tableIndex).error
    ensures r.Extracted? ==>
              var rows := SelectTable(fetched, tableIndex).rows;
              && r.table.headers == Headers(rows[0])
              && r.table.data == DataRows(rows[1..])
  {
    match SelectTable(fetched, tableIndex)
    case NotSelected(e) => TableFailure(e)
    case Selected(rows) => Extracted(TableData(Headers(rows[0]), DataRows(rows[1..])))
  }

  /** Corrected, no row after the header row that has `td` cells is lost:
      each appears as a data row, in table order. */
  lemma CorrectedKeepsEveryDataRow(fetched: Option<WikiPage>, tableIndex: nat) returns (idx: seq<nat>)
    requires SelectTable(fetched, tableIndex).Selected?
    ensures var rows := SelectTable(fetched, tableIndex).rows;
            var data := ScrapeTableCorrected(fetched, tableIndex).table.data;
            && |idx| == |data|
            && IncreasingWithin(idx, 1, |rows|)
            && (forall i :: 0 <= i < |idx| ==> data[i] == StripAll(rows[idx[i]].td))
            && (forall j :: 1 <= j < |rows| && |rows[j].td| > 0 ==> j in idx)
  {
    idx := SuffixSources(SelectTable(fetched, tableIndex).rows, 1);
  }

  /** As written, a two-row table whose header row uses `td` cells loses its
      only data row, which the corrected reading keeps. */
  lemma TdHeadersLoseFirstDataRow()
    ensures var page := Some(WikiPage(Some("T"), [[Row([], ["a"]), Row([], ["1"])]]));
            && ScrapeTable(page, 0) == Extracted(TableData(["a"], []))
            && ScrapeTableCorrected(page, 0) == Extracted(TableData(["a"], [["1"]]))
  {
    var rows := [Row([], ["a"]), Row([], ["1"])];
    StripKeepsTrimmed("a");
    StripKeepsTrimmed("1");
    assert StripAll(["a"]) == ["a"];
    assert StripAll(["1"]) == ["1"];
    assert Headers(rows[0]) == ["a"];
    assert rows[1..] == [rows[1]];
    assert DataRows(rows[1..]) == [["1"]];
  }

  /** With `td` headers the table's second row is silently dropped: no data
      row comes from the table's first two rows. */
  lemma TdHeadersSkipSecondRow(page: WikiPage, tableIndex: nat)
    requires page.title.Some? && tableIndex < |page.tables|
    requires var rows := page.tables[tableIndex];
             |rows| >= 2 && |rows[0].th| == 0 && |rows[0].td| > 0
    ensures var rows := page.tables[tableIndex];
            && ScrapeTable(Some(page), tableIndex).Extracted?
            && ScrapeTable(Some(page), tableIndex).table.data == DataRows(rows[2..])
            && |ScrapeTable(Some(page), tableIndex).table.data| <= |rows| - 2
  {
  }

  /** Every data row is the stripped `td` texts of one row after the first,
      non-empty, and the rows keep table order. */
  lemma DataRowsComeFromLaterRows(page: WikiPage, tableIndex: nat) returns (idx: seq<nat>)
    requires ScrapeTable(Some(page), tableIndex).Extracted?
    ensures var rows := page.tables[tableIndex];
            var data := ScrapeTable(Some(page), tableIndex).table.data;
            && |idx| == |data|
            && IncreasingWithin(idx, 1, |rows|)
            && (forall i :: 0 <= i < |idx| ==> data[i] == StripAll(rows[idx[i]].td))
            && (forall i :: 0 <= i < |idx| ==> |data[i]| > 0)
  {
    var rows := page.tables[tableIndex];
    var skip := if |rows[0].th| == 0 && |rows[0].td| > 0 && |rows| >= 2 then 2 else 1;
    assert ScrapeTable(Some(page), tableIndex).table.data == DataRows(rows[skip..]);
    idx := SuffixSources(rows, skip);
  }
}
