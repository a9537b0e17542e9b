/**
 * Record normalisation: a raw table read from a CSV or spreadsheet becomes
 * the canonical record list (ID, Category, Resume_html, Resume_str) plus
 * ingestion statistics.  Reading the file and parsing HTML are collaborators:
 * the table (or the read failure) and the HTML-to-text extraction are inputs.
 */
module FileProcessor {
  import opened Wrappers
  import opened PyText

  /** A pandas cell: missing (NaN or None), or a value whose `str()` is `text`. */
  datatype Cell = NaN | Val(text: string)

  /** `str(v)` of a cell. */
  function CellStr(c: Cell): string
  {
    match c
    case NaN => "nan"
    case Val(t) => t
  }

  /** `_non_empty`: not NaN and not blank once stripped. */
  predicate NonEmpty(c: Cell)
  {
    c.Val? && Strip(c.text) != []
  }

  /** The raw table `_read_any` yields: column names and rows of cells. */
  datatype Table = Table(columns: seq<string>, rows: seq<seq<Cell>>)

  /** What reading the file gave: a table, or the exception's type and message. */
  datatype ReadOutcome = ReadOk(table: Table) | ReadFailed(message: string)

  /** One row of the normalised frame; a column the frame lacks reads as NaN (`row.get` gives None). */
  datatype Row = Row(id: Cell, html: Cell, str: Cell, category: Cell)

  /** The normalised frame: which canonical columns exist, and its rows. */
  datatype Frame = Frame(hasId: bool, hasHtml: bool, hasStr: bool, hasCategory: bool, rows: seq<Row>)

  /** A canonical record, as `_row_to_record` builds it. */
  datatype Record = Record(id: Cell, category: string, html: string, text: string)

  datatype Stats = Stats(
    totalRowsRaw: nat,
    rowsWithAnyText: nat,
    rowsWithoutAnyText: nat,
    rowsMissingId: nat,
    rowsUsed: nat,
    sourcePath: string,
    htmlNonEmpty: Option<nat>,
    strNonEmpty: Option<nat>,
    error: Option<string>)

  /** The alias lists, in priority order. */
  const HtmlAliases: seq<string> := ["resume_html", "resume html", "resumehtml", "html"]
  const StrAliases: seq<string> := ["resume_str", "resume str", "resumestr", "text"]
  const CategoryAliases: seq<string> := ["category", "profession", "role", "dept"]
  const IdAliases: seq<string> := ["id", "candidate_id", "candidateid"]

  // ---------------------------------------------------------------- columns

  function LowerAll(cols: seq<string>): (r: seq<string>)
    ensures |r| == |cols| && forall i :: 0 <= i < |cols| ==> r[i] == Lower(cols[i])
  {
    seq(|cols|, i requires 0 <= i < |cols| => Lower(cols[i]))
  }

  /** `find_col`: the position in `candidates` of the first one that is a column name. */
  function FindCol(candidates: seq<string>, columns: seq<string>): (r: Option<nat>)
    ensures r.None? <==> forall j :: 0 <= j < |candidates| ==> candidates[j] !in columns
    ensures r.Some? ==> r.value < |candidates| && candidates[r.value] in columns
    ensures r.Some? ==> forall j :: 0 <= j < r.value ==> candidates[j] !in columns
  {
    if candidates == [] then None
    else if candidates[0] in columns then Some(0)
    else
      match FindCol(candidates[1..], columns)
      case None => None
      case Some(k) => Some(k + 1)
  }

  /** Position of the first column called `name` (`df[name]` with unique names). */
  function ColumnIndex(columns: seq<string>, name: string): (k: nat)
    requires name in columns
    ensures k < |columns| && columns[k] == name
    ensures forall j :: 0 <= j < k ==> columns[j] != name
  {
    if columns[0] == name then 0 else 1 + ColumnIndex(columns[1..], name)
  }

  function CellAt(row: seq<Cell>, k: nat): Cell
  {
    if k < |row| then row[k] else NaN
  }

  /** `c` is the row's cell under the earliest of `aliases` that is a column name, if any is. */
  predicate ReadsEarliestAlias(c: Cell, row: seq<Cell>, columns: seq<string>, aliases: seq<string>)
  {
    forall j :: 0 <= j < |aliases| && aliases[j] in columns && (forall k :: 0 <= k < j ==> aliases[k] !in columns) ==>
      c == CellAt(row, ColumnIndex(columns, aliases[j]))
  }

  /** The cell of the column resolved by `aliases`, or NaN when none of them is a column. */
  function Pick(row: seq<Cell>, columns: seq<string>, aliases: seq<string>): (c: Cell)
    ensures (forall j :: 0 <= j < |aliases| ==> aliases[j] !in columns) ==> c == NaN
    ensures ReadsEarliestAlias(c, row, columns, aliases)
  {
    match FindCol(aliases, columns)
    case None => NaN
    case Some(k) => CellAt(row, ColumnIndex(columns, aliases[k]))
  }

  /** Whether some alias in the list is a column name. */
  predicate Resolves(aliases: seq<string>, columns: seq<string>)
  {
    exists j :: 0 <= j < |aliases| && aliases[j] in columns
  }

  function NormalizeRow(row: seq<Cell>, columns: seq<string>): Row
  {
    Row(Pick(row, columns, IdAliases), Pick(row, columns, HtmlAliases),
        Pick(row, columns, StrAliases), Pick(row, columns, CategoryAliases))
  }

  /**
   * `_normalize_cols`: lower-case the column names and resolve each canonical
   * column through its alias list.  The output frame starts empty, so when no
   * alias matches it has no rows at all.
   */
  function NormalizeCols(t: Table): (f: Frame)
    ensures var cols := LowerAll(t.columns);
      && (f.hasId <==> Resolves(IdAliases, cols)) && (f.hasHtml <==> Resolves(HtmlAliases, cols))
      && (f.hasStr <==> Resolves(StrAliases, cols)) && (f.hasCategory <==> Resolves(CategoryAliases, cols))
    ensures |f.rows| == if f.hasId || f.hasHtml || f.hasStr || f.hasCategory then |t.rows| else 0
    ensures forall i :: 0 <= i < |f.rows| ==>
      (!f.hasId ==> f.rows[i].id == NaN) && (!f.hasHtml ==> f.rows[i].html == NaN) &&
      (!f.hasStr ==> f.rows[i].str == NaN) && (!f.hasCategory ==> f.rows[i].category == NaN)
    ensures var cols := LowerAll(t.columns);
      forall i :: 0 <= i < |f.rows| ==>
        && ReadsEarliestAlias(f.rows[i].id, t.rows[i], cols, IdAliases)
        && ReadsEarliestAlias(f.rows[i].html, t.rows[i], cols, HtmlAliases)
        && ReadsEarliestAlias(f.rows[i].str, t.rows[i], cols, StrAliases)
        && ReadsEarliestAlias(f.rows[i].category, t.rows[i], cols, CategoryAliases)
  {
    var cols := LowerAll(t.columns);
    var hasId, hasHtml := FindCol(IdAliases, cols).Some?, FindCol(HtmlAliases, cols).Some?;
    var hasStr, hasCat := FindCol(StrAliases, cols).Some?, FindCol(CategoryAliases, cols).Some?;
    var rows :=
      if hasId || hasHtml || hasStr || hasCat
      then seq(|t.rows|, i requires 0 <= i < |t.rows| => NormalizeRow(t.rows[i], cols))
      else [];
    Frame(hasId, hasHtml, hasStr, hasCat, rows)
  }

  // ---------------------------------------------------------------- records

  /**
   * `html_to_text`: `extract` is the parser's `get_text` after dropping
   * script and style elements (None when it raises); the text is then
   * whitespace-collapsed, and any exception gives "".
   */
  function HtmlToText(extract: string -> Option<string>, html: string): (r: string)
    ensures IsCollapsed(r)
    ensures extract(html).None? ==> r == []
    ensures extract(html).Some? ==> Split(r) == Split(extract(html).value)
  {
    match extract(html)
    case None => []
    case Some(text) =>
      CollapseIsCollapsed(text);
      SplitJoinSpace(Split(text));
      Collapse(text)
  }

  /** Running `html_to_text`'s whitespace step on its own output changes nothing. */
  lemma HtmlToTextStable(extract: string -> Option<string>, html: string)
    ensures Collapse(HtmlToText(extract, html)) == HtmlToText(extract, html)
  {
    CollapseFixedIffCollapsed(HtmlToText(extract, html));
  }

  /** The HTML a row carries, "" for NaN. */
  function HtmlOf(r: Row): string
  {
    if r.html.NaN? then [] else r.html.text
  }

  /** The text of a record: the stripped Resume_str when it is non-blank, else the text derived from the HTML. */
  function DerivedText(extract: string -> Option<string>, r: Row): (text: string)
    ensures NonEmpty(r.str) ==> text == Strip(r.str.text) && text != []
    ensures !NonEmpty(r.str) ==> text == HtmlToText(extract, HtmlOf(r))
    ensures text == [] || (!IsSpace(text[0]) && !IsSpace(text[|text| - 1]))
  {
    if NonEmpty(r.str) then Strip(r.str.text)
    else
      CollapsedHasNoEdgeSpace(HtmlToText(extract, HtmlOf(r)));
      HtmlToText(extract, HtmlOf(r))
  }

  /** `_row_to_record`: the ID as it is, the derived text, and "" for a NaN category or HTML. */
  function RowToRecord(extract: string -> Option<string>, r: Row): (rec: Record)
    ensures rec.id == r.id
    ensures NonEmpty(r.str) ==> rec.text == Strip(r.str.text) && rec.text != []
    ensures !NonEmpty(r.str) ==> rec.text == HtmlToText(extract, HtmlOf(r))
    ensures rec.text == [] || (!IsSpace(rec.text[0]) && !IsSpace(rec.text[|rec.text| - 1]))
    ensures rec.category == (if r.category.NaN? then [] else r.category.text)
    ensures rec.html == HtmlOf(r)
  {
    Record(r.id, if r.category.NaN? then [] else CellStr(r.category), HtmlOf(r), DerivedText(extract, r))
  }

  // ---------------------------------------------------------------- counting

  predicate MissingId(r: Row) { !NonEmpty(r.id) }
  predicate HasHtml(r: Row) { NonEmpty(r.html) }
  predicate HasStr(r: Row) { NonEmpty(r.str) }
  predicate HasAnyText(r: Row) { HasStr(r) || HasHtml(r) }

  /** Rows that the second pass keeps: ID not NaN, some text column non-blank, derived text non-empty. */
  predicate Kept(extract: string -> Option<string>, r: Row)
  {
    r.id.Val? && HasAnyText(r) && RowToRecord(extract, r).text != []
  }

  function CountMissingId(rows: seq<Row>): nat
  {
    if rows == [] then 0 else CountMissingId(rows[..|rows| - 1]) + (if MissingId(rows[|rows| - 1]) then 1 else 0)
  }

  function CountHtml(rows: seq<Row>): nat
  {
    if rows == [] then 0 else CountHtml(rows[..|rows| - 1]) + (if HasHtml(rows[|rows| - 1]) then 1 else 0)
  }

  function CountStr(rows: seq<Row>): nat
  {
    if rows == [] then 0 else CountStr(rows[..|rows| - 1]) + (if HasStr(rows[|rows| - 1]) then 1 else 0)
  }

  function CountAnyText(rows: seq<Row>): nat
  {
    if rows == [] then 0 else CountAnyText(rows[..|rows| - 1]) + (if HasAnyText(rows[|rows| - 1]) then 1 else 0)
  }

  /** The records of the second pass, in row order. */
  function Select(extract: string -> Option<string>, rows: seq<Row>): seq<Record>
  {
    if rows == [] then []
    else
      var last := rows[|rows| - 1];
      Select(extract, rows[..|rows| - 1]) + (if Kept(extract, last) then [RowToRecord(extract, last)] else [])
  }

  /** Positions, in increasing order, of the elements that satisfy `p`. */
  function FilterIndices<T>(s: seq<T>, p: T -> bool): seq<nat>
  {
    if s == [] then []
    else FilterIndices(s[..|s| - 1], p) + (if p(s[|s| - 1]) then [|s| - 1] else [])
  }

  /** Positions of the kept rows. */
  function KeptIndices(extract: string -> Option<string>, rows: seq<Row>): seq<nat>
  {
    FilterIndices(rows, (r: Row) => Kept(extract, r))
  }

  /** Every count is at most the number of rows, and any-text lies between the per-column counts and their sum. */
  lemma {:induction false} CountBounds(rows: seq<Row>)
    ensures CountMissingId(rows) <= |rows| && CountAnyText(rows) <= |rows|
    ensures CountHtml(rows) <= CountAnyText(rows) && CountStr(rows) <= CountAnyText(rows)
    ensures CountAnyText(rows) <= CountHtml(rows) + CountStr(rows)
  {
    if rows != [] {
      CountBounds(rows[..|rows| - 1]);
    }
  }

  /** No more records are produced than rows with any text. */
  lemma {:induction false} SelectBound(extract: string -> Option<string>, rows: seq<Row>)
    ensures |Select(extract, rows)| <= CountAnyText(rows)
  {
    if rows != [] {
      SelectBound(extract, rows[..|rows| - 1]);
    }
  }

  /** The filtered positions are in range, strictly increasing, and are exactly those where `p` holds. */
  lemma {:induction false} FilterIndicesExact<T>(s: seq<T>, p: T -> bool)
    ensures var ks := FilterIndices(s, p);
      && (forall k :: 0 <= k < |ks| ==> ks[k] < |s|)
      && (forall k, l :: 0 <= k < l < |ks| ==> ks[k] < ks[l])
      && (forall i :: 0 <= i < |s| ==> (i in ks <==> p(s[i])))
  {
    if s != [] {
      var n := |s| - 1;
      var init := s[..n];
      FilterIndicesExact(init, p);
      forall i | 0 <= i < n ensures i in FilterIndices(s, p) <==> p(s[i]) {
        assert init[i] == s[i];
      }
    }
  }

  /** The kept positions are in range, strictly increasing, and are exactly the kept rows. */
  lemma KeptIndicesExact(extract: string -> Option<string>, rows: seq<Row>)
    ensures var ks := KeptIndices(extract, rows);
      && (forall k, l :: 0 <= k < l < |ks| ==> ks[k] < ks[l])
      && (forall i :: 0 <= i < |rows| ==> (i in ks <==> Kept(extract, rows[i])))
  {
    FilterIndicesExact(rows, (r: Row) => Kept(extract, r));
  }

  /**
   * The records are the kept rows, each exactly once and in row order: record
   * k is built from the row at the k-th kept position (see KeptIndicesExact).
   * Rows are never merged, so duplicate IDs pass through.
   */
  lemma {:induction false} SelectIsOrderedSubsequence(extract: string -> Option<string>, rows: seq<Row>)
    ensures var ks := KeptIndices(extract, rows);
      && |Select(extract, rows)| == |ks|
      && (forall k :: 0 <= k < |ks| ==> ks[k] < |rows| && Select(extract, rows)[k] == RowToRecord(extract, rows[ks[k]]))
  {
    if rows != [] {
      var n := |rows| - 1;
      var init := rows[..n];
      SelectIsOrderedSubsequence(extract, init);
      var ks0 := KeptIndices(extract, init);
      assert forall k :: 0 <= k < |ks0| ==> init[ks0[k]] == rows[ks0[k]];
    }
  }

  /** A row with a whitespace-only ID is counted as missing an ID and still becomes a record. */
  lemma BlankIdCountedMissingButUsed(extract: string -> Option<string>)
    ensures var rows := [Row(Val(" "), NaN, Val("Go engineer"), NaN)];
      CountMissingId(rows) == 1 && |Select(extract, rows)| == 1
  {
    var rows := [Row(Val(" "), NaN, Val("Go engineer"), NaN)];
    assert rows[..0] == [];
    assert Strip(" ") == [];
    assert !IsSpace('G');
    StripKeepsText("Go engineer", 0);
  }

  // ---------------------------------------------------------------- loading

  function EmptyStats(path: string, error: Option<string>): Stats
  {
    Stats(0, 0, 0, 0, 0, path, None, None, error)
  }

  const MissingColumnsError: string := "Missing required columns (need ID and one of Resume_html/Resume_str)"

  /** The records of a normalised frame: none without rows, without IDs or without any text column. */
  function FrameRecords(f: Frame, extract: string -> Option<string>): seq<Record>
  {
    if |f.rows| == 0 || !f.hasId || (!f.hasHtml && !f.hasStr) then [] else Select(extract, f.rows)
  }

  /** The statistics of a normalised frame, with the empty-frame and missing-columns shapes. */
  function FrameStats(path: string, f: Frame, extract: string -> Option<string>): Stats
  {
    var total := |f.rows|;
    if total == 0 then EmptyStats(path, None)
    else if !f.hasId || (!f.hasHtml && !f.hasStr) then
      Stats(total, 0, total, if f.hasId then 0 else total, 0, path, None, None, Some(MissingColumnsError))
    else
      var any := CountAnyText(f.rows);
      CountBounds(f.rows);
      Stats(total, any, total - any, CountMissingId(f.rows), |Select(extract, f.rows)|, path,
            Some(CountHtml(f.rows)), Some(CountStr(f.rows)), None)
  }

  /** The records a load yields, given whether the path exists and what reading it gave. */
  function LoadedRecords(pathExists: bool, read: ReadOutcome, extract: string -> Option<string>): seq<Record>
  {
    if !pathExists || read.ReadFailed? then [] else FrameRecords(NormalizeCols(read.table), extract)
  }

  /** The statistics a load reports, with the early-exit shapes. */
  function LoadedStats(path: string, pathExists: bool, read: ReadOutcome, extract: string -> Option<string>): Stats
  {
    if !pathExists then EmptyStats(path, None)
    else if read.ReadFailed? then EmptyStats(path, Some("Failed to read file: " + read.message))
    else FrameStats(path, NormalizeCols(read.table), extract)
  }

  /**
   * The statistics are consistent on every path: rows with and without text
   * add up to the total, missing IDs and per-column counts are bounded by the
   * total, any-text lies between the larger per-column count and their sum,
   * and the rows used are the records returned, no more than the rows with text.
   * Only a read failure or missing columns carry an error.
   */
  lemma LoadedStatsConsistent(path: string, pathExists: bool, read: ReadOutcome, extract: string -> Option<string>)
    ensures var s := LoadedStats(path, pathExists, read, extract);
      && s.sourcePath == path
      && s.rowsWithAnyText + s.rowsWithoutAnyText == s.totalRowsRaw
      && s.rowsMissingId <= s.totalRowsRaw
      && s.rowsUsed == |LoadedRecords(pathExists, read, extract)| <= s.rowsWithAnyText
      && (s.htmlNonEmpty.Some? <==> s.strNonEmpty.Some?)
      && (s.htmlNonEmpty.Some? ==> s.htmlNonEmpty.value <= s.rowsWithAnyText && s.strNonEmpty.value <= s.rowsWithAnyText
                                   && s.rowsWithAnyText <= s.htmlNonEmpty.value + s.strNonEmpty.value)
      && (s.error.Some? <==> pathExists && (read.ReadFailed? || var f := NormalizeCols(read.table);
            |f.rows| > 0 && (!f.hasId || (!f.hasHtml && !f.hasStr))))
      && (s.error.Some? || s.totalRowsRaw == 0 <==> LoadedRecords(pathExists, read, extract) == [] && s.htmlNonEmpty.None?)
  {
    if pathExists && read.ReadOk? {
      var f := NormalizeCols(read.table);
      CountBounds(f.rows);
      SelectBound(extract, f.rows);
    }
  }

  /**
   * `load_resumes_with_stats`: the early exits (missing file, read failure,
   * empty frame, missing columns) and the two passes over the rows: one that
   * counts, one that builds the records.  `pathExists` is the answer of
   * `os.path.exists(path)`, `read` what `_read_any(path)` gave.
   */
  method LoadResumesWithStats(path: string, pathExists: bool, read: ReadOutcome, extract: string -> Option<string>)
    returns (records: seq<Record>, stats: Stats)
    ensures records == LoadedRecords(pathExists, read, extract)
    ensures stats == LoadedStats(path, pathExists, read, extract)
  {
    if !pathExists {
      return [], EmptyStats(path, None);
    }
    if read.ReadFailed? {
      return [], EmptyStats(path, Some("Failed to read file: " + read.message));
    }
    records, stats := LoadFrame(path, NormalizeCols(read.table), extract);
  }

  /** `load_resumes_with_stats` once the frame is normalised: the last early exits, then the two passes. */
  method LoadFrame(path: string, df: Frame, extract: string -> Option<string>) returns (records: seq<Record>, stats: Stats)
    ensures records == FrameRecords(df, extract)
    ensures stats == FrameStats(path, df, extract)
  {
    var total := |df.rows|;
    if total == 0 {
      return [], EmptyStats(path, None);
    }
    if !df.hasId || (!df.hasHtml && !df.hasStr) {
      return [], Stats(total, 0, total, if !df.hasId then total else 0, 0, path, None, None, Some(MissingColumnsError));
    }

    var htmlNonEmpty, strNonEmpty, anyText, missingId := CountRows(df.rows);
    records := BuildRecords(extract, df.rows);
    CountBounds(df.rows);
    stats := Stats(total, anyText, total - anyText, missingId, |records|, path,
                   Some(htmlNonEmpty), Some(strNonEmpty), None);
  }

  /** The counters over one more row. */
  lemma {:induction false} CountsSnoc(rows: seq<Row>, i: nat)
    requires i < |rows|
    ensures var r, pre, upto := rows[i], rows[..i], rows[..i + 1];
      && CountHtml(upto) == CountHtml(pre) + (if HasHtml(r) then 1 else 0)
      && CountStr(upto) == CountStr(pre) + (if HasStr(r) then 1 else 0)
      && CountAnyText(upto) == CountAnyText(pre) + (if HasAnyText(r) then 1 else 0)
      && CountMissingId(upto) == CountMissingId(pre) + (if MissingId(r) then 1 else 0)
  {
    var upto := rows[..i + 1];
    assert upto[..|upto| - 1] == rows[..i] && upto[|upto| - 1] == rows[i];
  }

  /** The first pass of `load_resumes_with_stats`: the four counters, one row at a time. */
  method CountRows(rows: seq<Row>) returns (htmlNonEmpty: nat, strNonEmpty: nat, anyText: nat, missingId: nat)
    ensures htmlNonEmpty == CountHtml(rows) && strNonEmpty == CountStr(rows)
    ensures anyText == CountAnyText(rows) && missingId == CountMissingId(rows)
  {
    htmlNonEmpty, strNonEmpty, anyText, missingId := 0, 0, 0, 0;
    for i := 0 to |rows|
      invariant htmlNonEmpty == CountHtml(rows[..i]) && strNonEmpty == CountStr(rows[..i])
      invariant anyText == CountAnyText(rows[..i]) && missingId == CountMissingId(rows[..i])
    {
      var r := rows[i];
      CountsSnoc(rows, i);
      if !NonEmpty(r.id) {
        missingId := missingId + 1;
      }
      htmlNonEmpty := htmlNonEmpty + if NonEmpty(r.html) then 1 else 0;
      strNonEmpty := strNonEmpty + if NonEmpty(r.str) then 1 else 0;
      if NonEmpty(r.str) || NonEmpty(r.html) {
        anyText := anyText + 1;
      }
    }
    assert rows[..|rows|] == rows;
  }

  /** The second pass: skip NaN IDs and rows without text, keep records whose text is non-empty. */
  method BuildRecords(extract: string -> Option<string>, rows: seq<Row>) returns (records: seq<Record>)
    ensures records == Select(extract, rows)
  {
    records := [];
    for i := 0 to |rows|
      invariant records == Select(extract, rows[..i])
    {
      var r := rows[i];
      assert rows[..i + 1][..i] == rows[..i];
      if r.id.NaN? {
        continue;
      }
      var hasStrVal := NonEmpty(r.str);
      var hasHtmlVal := NonEmpty(r.html);
      if !(hasStrVal || hasHtmlVal) {
        continue;
      }
      var rec := RowToRecord(extract, r);
      if rec.text != [] {
        records := records + [rec];
      }
    }
    assert rows[..|rows|] == rows;
  }

  /** `load_resumes`: the record list of `load_resumes_with_stats`. */
  method LoadResumes(path: string, pathExists: bool, read: ReadOutcome, extract: string -> Option<string>)
    returns (records: seq<Record>)
    ensures records == LoadedRecords(pathExists, read, extract)
  {
    var stats;
    records, stats := LoadResumesWithStats(path, pathExists, read, extract);
  }
}
