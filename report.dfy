/**
 * The plain-text report of a project analysis: an overall summary, a table by
 * file extension and a table of the largest files. The analysis record comes from
 * the engine; a key it leaves out is `None` here, and an absent list is empty.
 */
module Report {
  import opened Wrappers
  import opened Text

  datatype Overall = Overall(fileCount: Option<int>, totalLines: Option<int>, totalTokens: Option<int>)

  datatype ExtensionRow = ExtensionRow(
    extension: Option<string>,
    fileCount: Option<int>,
    tokens: Option<int>,
    lines: Option<int>)

  datatype FileRow = FileRow(path: Option<string>, tokens: Option<int>, lines: Option<int>)

  datatype Analysis = Analysis(overall: Overall, byExtension: seq<ExtensionRow>, topFiles: seq<FileRow>)

  const SummaryTitle := "--- Overall Project Summary ---"

  /** The summary block: its title, three totals (0 when missing) and a blank line. */
  function SummaryLines(o: Overall): seq<string> {
    [ SummaryTitle,
      "Total Files:  " + Thousands(o.fileCount.GetOr(0)),
      "Total Lines:  " + Thousands(o.totalLines.GetOr(0)),
      "Total Tokens: " + Thousands(o.totalTokens.GetOr(0)),
      "" ]
  }

  function ExtensionTitle(n: nat): string {
    "--- Analysis by File Type (Top " + Decimal(n) + ") ---"
  }

  const ExtensionHeader: string :=
    LJust("Extension", 12) + " | " + RJust("Files", 6) + " | " + RJust("Tokens", 10) + " | "
    + RJust("Lines", 8) + " | " + RJust("Avg Tokens/File", 15)

  const ExtensionRule: string :=
    Repeat('-', 12) + "-+-" + Repeat('-', 6) + "-+-" + Repeat('-', 10) + "-+-" + Repeat('-', 8) + "-+-" + Repeat('-', 15)

  /** The average column reads `row['tokens']` without a default once the file count is positive. */
  predicate RaisesKeyError(row: ExtensionRow) {
    row.fileCount.GetOr(0) > 0 && row.tokens.None?
  }

  /** No row raises, checked from the last row back, the way the lines are built. */
  predicate ExtensionRowsOk(rows: seq<ExtensionRow>) {
    rows == [] || (ExtensionRowsOk(rows[..|rows| - 1]) && !RaisesKeyError(rows[|rows| - 1]))
  }

  lemma {:induction false} ExtensionRowsOkIffNoneRaises(rows: seq<ExtensionRow>)
    ensures ExtensionRowsOk(rows) <==> forall k :: 0 <= k < |rows| ==> !RaisesKeyError(rows[k])
  {
    if rows != [] {
      var init := rows[..|rows| - 1];
      ExtensionRowsOkIffNoneRaises(init);
      assert forall k :: 0 <= k < |init| ==> init[k] == rows[k];
    }
  }

  /** Average tokens per file, rounded to a whole number, or `0` without a positive file count. */
  function AverageCell(fileCount: int, tokens: int): string {
    if fileCount > 0 then FormatQuotient(tokens, fileCount) else "0"
  }

  function ExtensionCells(row: ExtensionRow, average: string): string {
    LJust(row.extension.GetOr(""), 12) + " | " + RJust(Thousands(row.fileCount.GetOr(0)), 6) + " | "
    + RJust(Thousands(row.tokens.GetOr(0)), 10) + " | " + RJust(Thousands(row.lines.GetOr(0)), 8) + " | "
    + RJust(average, 15)
  }

  /**
   * The table line of a row. It is only ever built for a row that does not raise, and for
   * such a row `row['tokens']` and `row.get('tokens', 0)` agree.
   */
  function ExtensionLine(row: ExtensionRow): string {
    ExtensionCells(row, AverageCell(row.fileCount.GetOr(0), row.tokens.GetOr(0)))
  }

  /** One line per row, in order. */
  function Lines<T>(rows: seq<T>, line: T -> string): seq<string> {
    if rows == [] then [] else Lines(rows[..|rows| - 1], line) + [line(rows[|rows| - 1])]
  }

  lemma {:induction false} LinesAt<T>(rows: seq<T>, line: T -> string)
    ensures |Lines(rows, line)| == |rows|
    ensures forall k :: 0 <= k < |rows| ==> Lines(rows, line)[k] == line(rows[k])
  {
    if rows != [] {
      LinesAt(rows[..|rows| - 1], line);
    }
  }

  /** Extending the rows by one extends their lines by that row's line. */
  lemma LinesSnoc<T>(rows: seq<T>, i: nat, line: T -> string)
    requires i < |rows|
    ensures Lines(rows[..i + 1], line) == Lines(rows[..i], line) + [line(rows[i])]
  {
    assert rows[..i + 1][..i] == rows[..i];
  }

  lemma ExtensionRowsOkSnoc(rows: seq<ExtensionRow>, i: nat)
    requires i < |rows| && ExtensionRowsOk(rows[..i]) && !RaisesKeyError(rows[i])
    ensures ExtensionRowsOk(rows[..i + 1])
  {
    assert rows[..i + 1][..i] == rows[..i];
  }

  function ExtensionSection(rows: seq<ExtensionRow>): seq<string> {
    if rows == [] then []
    else [ExtensionTitle(|rows|), ExtensionHeader, ExtensionRule] + Lines(rows, ExtensionLine) + [""]
  }

  function FilesTitle(n: nat): string {
    "--- Largest Files by Tokens (Top " + Decimal(n) + ") ---"
  }

  const FilesHeader: string := LJust("File Path", 40) + " | " + RJust("Tokens", 10) + " | " + RJust("Lines", 8)

  const FilesRule: string := Repeat('-', 40) + "-+-" + Repeat('-', 10) + "-+-" + Repeat('-', 8)

  /** A path longer than 38 characters keeps its last 35 behind `...`. */
  function TruncatedPath(path: string): (r: string)
    ensures |path| > 38 ==> |r| == 38 && r[..3] == "..." && r[3..] == path[|path| - 35..]
    ensures |path| <= 38 ==> r == path
  {
    if |path| > 38 then "..." + path[|path| - 35..] else path
  }

  function FileCells(shown: string, row: FileRow): string {
    LJust(shown, 40) + " | " + RJust(Thousands(row.tokens.GetOr(0)), 10) + " | " + RJust(Thousands(row.lines.GetOr(0)), 8)
  }

  function FileLine(row: FileRow): string {
    FileCells(TruncatedPath(row.path.GetOr("")), row)
  }

  function FilesSection(rows: seq<FileRow>): seq<string> {
    if rows == [] then [] else [FilesTitle(|rows|), FilesHeader, FilesRule] + Lines(rows, FileLine)
  }

  /** The lines of the report, or `None` when a by-extension row raises `KeyError`. */
  function ReportLines(data: Analysis): Option<seq<string>> {
    if ExtensionRowsOk(data.byExtension) then
      Some(SummaryLines(data.overall) + ExtensionSection(data.byExtension) + FilesSection(data.topFiles))
    else None
  }

  function RenderedReport(data: Analysis): Option<string> {
    match ReportLines(data)
    case None => None
    case Some(lines) => Some(Join(lines, '\n'))
  }

  lemma RaisingRowSpoilsAll(rows: seq<ExtensionRow>, i: int)
    requires 0 <= i < |rows| && RaisesKeyError(rows[i])
    ensures !ExtensionRowsOk(rows)
  {
    ExtensionRowsOkIffNoneRaises(rows);
  }

  /** The report is the summary, then the by-extension section, then the largest-files section. */
  lemma ReportParts(data: Analysis)
    requires ExtensionRowsOk(data.byExtension)
    ensures ReportLines(data).Some?
    ensures var lines := ReportLines(data).value;
      var ext := ExtensionSection(data.byExtension);
      && |ext| == (if |data.byExtension| > 0 then |data.byExtension| + 4 else 0)
      && |FilesSection(data.topFiles)| == (if |data.topFiles| > 0 then |data.topFiles| + 3 else 0)
      && lines[..5] == SummaryLines(data.overall)
      && lines[5..5 + |ext|] == ext
      && lines[5 + |ext|..] == FilesSection(data.topFiles)
  {
    LinesAt(data.byExtension, ExtensionLine);
    LinesAt(data.topFiles, FileLine);
    var summary := SummaryLines(data.overall);
    var ext := ExtensionSection(data.byExtension);
    var files := FilesSection(data.topFiles);
    PartsOfThree(summary, ext, files);
  }

  lemma PartsOfThree(a: seq<string>, b: seq<string>, c: seq<string>)
    ensures (a + b + c)[..|a|] == a && (a + b + c)[|a|..|a| + |b|] == b && (a + b + c)[|a| + |b|..] == c
  {
  }

  /**
   * The line count is 5 for the summary, plus the row count and 4 when there are extension
   * rows, plus the file count and 3 when there are files; an empty list leaves its section out.
   */
  lemma ReportLength(data: Analysis)
    requires ExtensionRowsOk(data.byExtension)
    ensures ReportLines(data).Some?
    ensures |ReportLines(data).value| ==
      5 + (if |data.byExtension| > 0 then |data.byExtension| + 4 else 0)
        + (if |data.topFiles| > 0 then |data.topFiles| + 3 else 0)
  {
    ReportParts(data);
  }

  /** With rows, the by-extension section follows the summary: title, header, rule, one line per row, a blank line. */
  lemma ExtensionSectionPlacement(data: Analysis)
    requires ExtensionRowsOk(data.byExtension) && |data.byExtension| > 0
    ensures ReportLines(data).Some?
    ensures var lines := ReportLines(data).value; var e := |data.byExtension|;
      && |lines| > 8 + e
      && lines[5..8] == [ExtensionTitle(e), ExtensionHeader, ExtensionRule]
      && lines[8..8 + e] == Lines(data.byExtension, ExtensionLine)
      && lines[8 + e] == ""
  {
    ReportParts(data);
    var e := |data.byExtension|;
    var ext := ExtensionSection(data.byExtension);
    var lines := ReportLines(data).value;
    LinesAt(data.byExtension, ExtensionLine);
    PartsOfThree([ExtensionTitle(e), ExtensionHeader, ExtensionRule], Lines(data.byExtension, ExtensionLine), [""]);
    SliceOfSlice(lines, 5, 5 + |ext|, 0, 3);
    SliceOfSlice(lines, 5, 5 + |ext|, 3, 3 + e);
    assert lines[8 + e] == lines[5..5 + |ext|][3 + e];
  }

  lemma SliceOfSlice(s: seq<string>, i: nat, j: nat, k: nat, l: nat)
    requires i <= j <= |s| && k <= l <= j - i
    ensures s[i..j][k..l] == s[i + k..i + l]
  {
    assert forall m :: 0 <= m < l - k ==> s[i..j][k..l][m] == s[i + k + m];
  }

  /** With files, the largest-files section closes the report: title, header, rule, one line per file. */
  lemma FilesSectionPlacement(data: Analysis)
    requires ExtensionRowsOk(data.byExtension) && |data.topFiles| > 0
    ensures ReportLines(data).Some?
    ensures var lines := ReportLines(data).value;
      var at := 5 + (if |data.byExtension| > 0 then |data.byExtension| + 4 else 0);
      && |lines| == at + 3 + |data.topFiles|
      && lines[at..at + 3] == [FilesTitle(|data.topFiles|), FilesHeader, FilesRule]
      && lines[at + 3..] == Lines(data.topFiles, FileLine)
  {
    ReportParts(data);
    var files := FilesSection(data.topFiles);
    var lines := ReportLines(data).value;
    var at := 5 + |ExtensionSection(data.byExtension)|;
    assert lines[at..] == files;
    assert lines[at..at + 3] == files[..3];
    assert lines[at + 3..] == files[3..];
  }

  /** A path cell is exactly 40 characters wide and opens the line; the path it shows is never cut further. */
  lemma PathCell(row: FileRow)
    ensures var shown := TruncatedPath(row.path.GetOr(""));
      var line := FileLine(row);
      && |shown| <= 38
      && |LJust(shown, 40)| == 40
      && |line| > 43
      && line[..40] == LJust(shown, 40)
      && line[..|shown|] == shown
      && line[40..43] == " | "
  {
    var shown := TruncatedPath(row.path.GetOr(""));
    var cell := LJust(shown, 40);
    var tokens := RJust(Thousands(row.tokens.GetOr(0)), 10);
    var lines := RJust(Thousands(row.lines.GetOr(0)), 8);
    var rest := " | " + tokens + " | " + lines;
    RegroupFive(cell, " | ", tokens, " | ", lines);
    assert FileLine(row) == cell + rest;
    LJustShape(shown, 40);
    assert (cell + rest)[..40] == cell;
    assert (cell + rest)[40..43] == rest[..3];
    assert rest[..3] == " | ";
  }

  lemma RegroupFive(a: string, b: string, c: string, d: string, e: string)
    ensures a + b + c + d + e == a + (b + c + d + e)
  {
  }

  /**
   * The average cell, read back without its separators, is the quotient of tokens by files
   * rounded to the nearest whole number, ties to the even one; without a positive file
   * count it is `0`.
   */
  lemma AverageCellNearest(fileCount: int, tokens: int)
    ensures fileCount <= 0 ==> AverageCell(fileCount, tokens) == "0"
    ensures fileCount > 0 ==>
      var s := StripCommas(AverageCell(fileCount, tokens));
      && IsPlainInt(s)
      && var q := ParseInt(s);
      && 2 * (tokens - q * fileCount) <= fileCount
      && 2 * (q * fileCount - tokens) <= fileCount
      && (2 * (tokens - q * fileCount) == fileCount || 2 * (q * fileCount - tokens) == fileCount ==> q % 2 == 0)
  {
    if fileCount > 0 {
      AverageCellParses(fileCount, tokens);
      SignedRoundNearest(tokens, fileCount);
    }
  }

  /** The rounded quotient, with the sign of the numerator. */
  function SignedRound(num: int, den: nat): int
    requires den > 0
  {
    if num < 0 then -(RoundHalfEven(-num, den) as int) else RoundHalfEven(num, den)
  }

  lemma AverageCellParses(fileCount: int, tokens: int)
    requires fileCount > 0
    ensures IsPlainInt(StripCommas(AverageCell(fileCount, tokens)))
    ensures ParseInt(StripCommas(AverageCell(fileCount, tokens))) == SignedRound(tokens, fileCount)
  {
    if tokens < 0 {
      var m := RoundHalfEven(-tokens, fileCount);
      assert AverageCell(fileCount, tokens) == "-" + Thousands(m);
      NegatedStripsToPlain(m);
    } else {
      ThousandsStripsToPlain(RoundHalfEven(tokens, fileCount));
    }
  }

  lemma SignedRoundNearest(num: int, den: nat)
    requires den > 0
    ensures var q := SignedRound(num, den);
      && 2 * (num - q * den) <= den
      && 2 * (q * den - num) <= den
      && (2 * (num - q * den) == den || 2 * (q * den - num) == den ==> q % 2 == 0)
  {
    if num < 0 {
      var m := RoundHalfEven(-num, den);
      RoundHalfEvenNearest(-num, den);
      assert SignedRound(num, den) * den == -(m * den);
    } else {
      RoundHalfEvenNearest(num, den);
    }
  }


  /** Every summary total, read back without its separators, is the value recorded, or 0 when missing. */
  lemma SummaryReadsBack(o: Overall)
    ensures var lines := SummaryLines(o);
      && |lines| == 5 && lines[0] == SummaryTitle && lines[4] == ""
      && lines[1][..14] == "Total Files:  " && lines[2][..14] == "Total Lines:  " && lines[3][..14] == "Total Tokens: "
      && IsPlainInt(StripCommas(lines[1][14..])) && ParseInt(StripCommas(lines[1][14..])) == o.fileCount.GetOr(0)
      && IsPlainInt(StripCommas(lines[2][14..])) && ParseInt(StripCommas(lines[2][14..])) == o.totalLines.GetOr(0)
      && IsPlainInt(StripCommas(lines[3][14..])) && ParseInt(StripCommas(lines[3][14..])) == o.totalTokens.GetOr(0)
  {
    var lines := SummaryLines(o);
    assert lines[1] == "Total Files:  " + Thousands(o.fileCount.GetOr(0));
    assert lines[2] == "Total Lines:  " + Thousands(o.totalLines.GetOr(0));
    assert lines[3] == "Total Tokens: " + Thousands(o.totalTokens.GetOr(0));
    LabelledCount("Total Files:  ", o.fileCount.GetOr(0));
    LabelledCount("Total Lines:  ", o.totalLines.GetOr(0));
    LabelledCount("Total Tokens: ", o.totalTokens.GetOr(0));
  }

  lemma LabelledCount(caption: string, n: int)
    ensures var line := caption + Thousands(n);
      && line[..|caption|] == caption
      && IsPlainInt(StripCommas(line[|caption|..])) && ParseInt(StripCommas(line[|caption|..])) == n
  {
    var line := caption + Thousands(n);
    assert line[|caption|..] == Thousands(n);
    ThousandsStripsToPlain(n);
  }

  /** No line of `lines` holds `c`. */
  predicate NoLineHolds(lines: seq<string>, c: char) {
    forall i :: 0 <= i < |lines| ==> Lacks(lines[i], c)
  }

  lemma NoLineHoldsConcat(a: seq<string>, b: seq<string>, c: char)
    requires NoLineHolds(a, c) && NoLineHolds(b, c)
    ensures NoLineHolds(a + b, c)
  {
    forall i | 0 <= i < |a + b|
      ensures Lacks((a + b)[i], c)
    {
      if i >= |a| {
        assert (a + b)[i] == b[i - |a|];
      }
    }
  }

  lemma LinesLack<T>(rows: seq<T>, line: T -> string, c: char)
    requires forall k :: 0 <= k < |rows| ==> Lacks(line(rows[k]), c)
    ensures NoLineHolds(Lines(rows, line), c)
  {
    LinesAt(rows, line);
  }

  /** A table cell holding a count, padded on either side. */
  lemma CountCellLacksNewline(n: int, width: nat)
    ensures Lacks(RJust(Thousands(n), width), '\n')
  {
    ThousandsLacks(n, '\n');
    LacksPadding(Thousands(n), width, '\n');
  }

  lemma SeparatedLacks(a: string, b: string, c: char)
    requires Lacks(a, c) && Lacks(b, c) && c != ' ' && c != '|'
    ensures Lacks(a + " | " + b, c)
  {
    assert " | " == [' ', '|', ' '];
    LacksConcat(a, " | ", c);
    LacksConcat(a + " | ", b, c);
  }

  lemma ExtensionLineLacksNewline(row: ExtensionRow)
    requires Lacks(row.extension.GetOr(""), '\n')
    ensures Lacks(ExtensionLine(row), '\n')
  {
    var fileCount, tokens := row.fileCount.GetOr(0), row.tokens.GetOr(0);
    var average := AverageCell(fileCount, tokens);
    if fileCount > 0 {
      if tokens < 0 {
        ThousandsLacks(RoundHalfEven(-tokens, fileCount), '\n');
        LacksConcat("-", Thousands(RoundHalfEven(-tokens, fileCount)), '\n');
      } else {
        ThousandsLacks(RoundHalfEven(tokens, fileCount), '\n');
      }
    }
    LacksPadding(row.extension.GetOr(""), 12, '\n');
    CountCellLacksNewline(fileCount, 6);
    CountCellLacksNewline(tokens, 10);
    CountCellLacksNewline(row.lines.GetOr(0), 8);
    LacksPadding(average, 15, '\n');
    var cells := [LJust(row.extension.GetOr(""), 12), RJust(Thousands(fileCount), 6),
      RJust(Thousands(tokens), 10), RJust(Thousands(row.lines.GetOr(0)), 8), RJust(average, 15)];
    SeparatedLacks(cells[0], cells[1], '\n');
    SeparatedLacks(cells[0] + " | " + cells[1], cells[2], '\n');
    SeparatedLacks(cells[0] + " | " + cells[1] + " | " + cells[2], cells[3], '\n');
    SeparatedLacks(cells[0] + " | " + cells[1] + " | " + cells[2] + " | " + cells[3], cells[4], '\n');
  }

  lemma FileLineLacksNewline(row: FileRow)
    requires Lacks(row.path.GetOr(""), '\n')
    ensures Lacks(FileLine(row), '\n')
  {
    var path := row.path.GetOr("");
    if |path| > 38 {
      LacksSuffix(path, |path| - 35, '\n');
      LacksConcat("...", path[|path| - 35..], '\n');
    }
    var shown := TruncatedPath(path);
    LacksPadding(shown, 40, '\n');
    CountCellLacksNewline(row.tokens.GetOr(0), 10);
    CountCellLacksNewline(row.lines.GetOr(0), 8);
    var cells := [LJust(shown, 40), RJust(Thousands(row.tokens.GetOr(0)), 10), RJust(Thousands(row.lines.GetOr(0)), 8)];
    SeparatedLacks(cells[0], cells[1], '\n');
    SeparatedLacks(cells[0] + " | " + cells[1], cells[2], '\n');
  }

  lemma SummaryLacksNewline(o: Overall)
    ensures NoLineHolds(SummaryLines(o), '\n')
  {
    var files, lines, tokens := "Total Files:  " + Thousands(o.fileCount.GetOr(0)),
      "Total Lines:  " + Thousands(o.totalLines.GetOr(0)), "Total Tokens: " + Thousands(o.totalTokens.GetOr(0));
    CountLacksNewline("Total Files:  ", o.fileCount.GetOr(0));
    CountLacksNewline("Total Lines:  ", o.totalLines.GetOr(0));
    CountLacksNewline("Total Tokens: ", o.totalTokens.GetOr(0));
    FiveLinesLack(SummaryTitle, files, lines, tokens, "", '\n');
  }

  lemma FiveLinesLack(a: string, b: string, c: string, d: string, e: string, ch: char)
    requires Lacks(a, ch) && Lacks(b, ch) && Lacks(c, ch) && Lacks(d, ch) && Lacks(e, ch)
    ensures NoLineHolds([a, b, c, d, e], ch)
  {
  }

  lemma CountLacksNewline(caption: string, n: int)
    requires Lacks(caption, '\n')
    ensures Lacks(caption + Thousands(n), '\n')
  {
    ThousandsLacks(n, '\n');
    LacksConcat(caption, Thousands(n), '\n');
  }

  /** A section title: the caption, the count and the closing marker. */
  lemma TitleLacksNewline(caption: string, n: nat)
    requires Lacks(caption, '\n')
    ensures Lacks(caption + Decimal(n) + ") ---", '\n')
  {
    DecimalLacks(n, '\n');
    LacksConcat(caption, Decimal(n), '\n');
    LacksConcat(caption + Decimal(n), ") ---", '\n');
  }

  lemma RuleLacksNewline(a: nat, b: nat, c: nat, d: nat, e: nat)
    ensures Lacks(Repeat('-', a) + "-+-" + Repeat('-', b) + "-+-" + Repeat('-', c) + "-+-"
      + Repeat('-', d) + "-+-" + Repeat('-', e), '\n')
    ensures Lacks(Repeat('-', a) + "-+-" + Repeat('-', b) + "-+-" + Repeat('-', c), '\n')
  {
  }

  lemma ExtensionSectionLacksNewline(rows: seq<ExtensionRow>)
    requires forall k :: 0 <= k < |rows| ==> Lacks(rows[k].extension.GetOr(""), '\n')
    ensures NoLineHolds(ExtensionSection(rows), '\n')
  {
    if rows != [] {
      TitleLacksNewline("--- Analysis by File Type (Top ", |rows|);
      LacksPadding("Extension", 12, '\n');
      LacksPadding("Files", 6, '\n');
      LacksPadding("Tokens", 10, '\n');
      LacksPadding("Lines", 8, '\n');
      LacksPadding("Avg Tokens/File", 15, '\n');
      SeparatedLacks(LJust("Extension", 12), RJust("Files", 6), '\n');
      SeparatedLacks(LJust("Extension", 12) + " | " + RJust("Files", 6), RJust("Tokens", 10), '\n');
      SeparatedLacks(LJust("Extension", 12) + " | " + RJust("Files", 6) + " | " + RJust("Tokens", 10),
        RJust("Lines", 8), '\n');
      SeparatedLacks(LJust("Extension", 12) + " | " + RJust("Files", 6) + " | " + RJust("Tokens", 10)
        + " | " + RJust("Lines", 8), RJust("Avg Tokens/File", 15), '\n');
      RuleLacksNewline(12, 6, 10, 8, 15);
      forall k | 0 <= k < |rows|
        ensures Lacks(ExtensionLine(rows[k]), '\n')
      {
        ExtensionLineLacksNewline(rows[k]);
      }
      LinesLack(rows, ExtensionLine, '\n');
      var head := [ExtensionTitle(|rows|), ExtensionHeader, ExtensionRule];
      assert NoLineHolds(head, '\n');
      NoLineHoldsConcat(head, Lines(rows, ExtensionLine), '\n');
      NoLineHoldsConcat(head + Lines(rows, ExtensionLine), [""], '\n');
    }
  }

  lemma FilesSectionLacksNewline(rows: seq<FileRow>)
    requires forall k :: 0 <= k < |rows| ==> Lacks(rows[k].path.GetOr(""), '\n')
    ensures NoLineHolds(FilesSection(rows), '\n')
  {
    if rows != [] {
      TitleLacksNewline("--- Largest Files by Tokens (Top ", |rows|);
      LacksPadding("File Path", 40, '\n');
      LacksPadding("Tokens", 10, '\n');
      LacksPadding("Lines", 8, '\n');
      SeparatedLacks(LJust("File Path", 40), RJust("Tokens", 10), '\n');
      SeparatedLacks(LJust("File Path", 40) + " | " + RJust("Tokens", 10), RJust("Lines", 8), '\n');
      RuleLacksNewline(40, 10, 8, 0, 0);
      forall k | 0 <= k < |rows|
        ensures Lacks(FileLine(rows[k]), '\n')
      {
        FileLineLacksNewline(rows[k]);
      }
      LinesLack(rows, FileLine, '\n');
      var head := [FilesTitle(|rows|), FilesHeader, FilesRule];
      assert NoLineHolds(head, '\n');
      NoLineHoldsConcat(head, Lines(rows, FileLine), '\n');
    }
  }

  /**
   * When no extension and no path holds a newline, splitting the rendered report at
   * newlines gives back its lines: the report is exactly the lines the formatter built.
   */
  lemma ReportSplitsIntoLines(data: Analysis)
    requires ExtensionRowsOk(data.byExtension)
    requires forall k :: 0 <= k < |data.byExtension| ==> Lacks(data.byExtension[k].extension.GetOr(""), '\n')
    requires forall k :: 0 <= k < |data.topFiles| ==> Lacks(data.topFiles[k].path.GetOr(""), '\n')
    ensures RenderedReport(data).Some?
    ensures Split(RenderedReport(data).value, '\n') == ReportLines(data).value
  {
    var summary, ext, top := SummaryLines(data.overall), ExtensionSection(data.byExtension), FilesSection(data.topFiles);
    SummaryLacksNewline(data.overall);
    ExtensionSectionLacksNewline(data.byExtension);
    FilesSectionLacksNewline(data.topFiles);
    NoLineHoldsConcat(summary, ext, '\n');
    NoLineHoldsConcat(summary + ext, top, '\n');
    SplitJoin(summary + ext + top, '\n');
  }

  /** A by-extension line starts with the extension and ends with the average cell. */
  lemma ExtensionLineEnds(row: ExtensionRow)
    ensures var ext := row.extension.GetOr("");
      var average := AverageCell(row.fileCount.GetOr(0), row.tokens.GetOr(0));
      var line := ExtensionLine(row);
      && |line| >= |ext| + |average|
      && line[..|ext|] == ext
      && line[|line| - |average|..] == average
  {
    var ext := row.extension.GetOr("");
    var average := AverageCell(row.fileCount.GetOr(0), row.tokens.GetOr(0));
    var first := LJust(ext, 12);
    var last := RJust(average, 15);
    var middle := " | " + RJust(Thousands(row.fileCount.GetOr(0)), 6) + " | "
      + RJust(Thousands(row.tokens.GetOr(0)), 10) + " | " + RJust(Thousands(row.lines.GetOr(0)), 8) + " | ";
    RegroupNine(first, " | ", RJust(Thousands(row.fileCount.GetOr(0)), 6), " | ",
      RJust(Thousands(row.tokens.GetOr(0)), 10), " | ", RJust(Thousands(row.lines.GetOr(0)), 8), " | ", last);
    assert ExtensionLine(row) == ExtensionCells(row, average);
    LJustShape(ext, 12);
    RJustShape(average, 15);
    FrontAndBack(first, middle, last, ext, average);
  }

  lemma RegroupNine(a: string, b: string, c: string, d: string, e: string, f: string, g: string, h: string, i: string)
    ensures a + b + c + d + e + f + g + h + i == a + (b + c + d + e + f + g + h) + i
  {
  }

  lemma FrontAndBack(first: string, middle: string, last: string, front: string, back: string)
    requires |front| <= |first| && first[..|front|] == front
    requires |back| <= |last| && last[|last| - |back|..] == back
    ensures var line := first + middle + last;
      && |line| >= |front| + |back|
      && line[..|front|] == front
      && line[|line| - |back|..] == back
  {
    var line := first + middle + last;
    assert line[..|front|] == first[..|front|];
    assert line[|line| - |back|..] == last[|last| - |back|..];
  }

  /** The ".py" row of 80 files and 700,000 tokens averages 8,750 tokens a file. */
  lemma PythonRowExample(row: ExtensionRow)
    requires row == ExtensionRow(Some(".py"), Some(80), Some(700000), Some(30000))
    ensures ExtensionLine(row)[..3] == ".py"
    ensures ExtensionLine(row)[|ExtensionLine(row)| - 5..] == "8,750"
  {
    ExtensionLineEnds(row);
    AverageCellExamples();
  }

  /**
   * The average column on concrete rows: 700,000 tokens over 80 files, and the halves
   * 2.5 and 3.5, which round to the even neighbour; no files gives "0", and a small
   * negative average keeps its sign.
   */
  lemma AverageCellExamples()
    ensures AverageCell(80, 700000) == "8,750"
    ensures AverageCell(2, 5) == "2" && AverageCell(2, 7) == "4" && AverageCell(3, 5) == "2"
    ensures AverageCell(0, 5) == "0" && AverageCell(4, -2) == "-0"
  {
    assert RoundHalfEven(700000, 80) == 8750;
  }

  /** A summary with one total missing, and no rows in either table. */
  lemma SummaryOnlyExample(o: Overall, lines: seq<string>)
    requires o == Overall(Some(120), Some(4500), None)
    requires lines == ["--- Overall Project Summary ---", "Total Files:  120", "Total Lines:  4,500", "Total Tokens: 0", ""]
    ensures ReportLines(Analysis(o, [], [])) == Some(lines)
  {
    assert "Total Files:  " + Thousands(120) == lines[1];
    assert "Total Lines:  " + Thousands(4500) == lines[2];
    assert "Total Tokens: " + Thousands(0) == lines[3];
    assert SummaryLines(o) == lines;
    assert ExtensionRowsOk([]) && ExtensionSection([]) == [] && FilesSection([]) == [];
    assert SummaryLines(o) + ExtensionSection([]) + FilesSection([]) == lines;
  }

  /**
   * `format_analysis_report`: appends the lines one by one and joins them. The `top_n`
   * argument is accepted and never read; the section titles count the rows given.
   */
  method FormatAnalysisReport(data: Analysis, topN: int) returns (r: Option<string>)
    ensures r.None? <==> exists k :: 0 <= k < |data.byExtension| && RaisesKeyError(data.byExtension[k])
    ensures r == RenderedReport(data)
  {
    var report: seq<string> := [];
    var overall := data.overall;
    report := report + [SummaryTitle];
    report := report + ["Total Files:  " + Thousands(overall.fileCount.GetOr(0))];
    report := report + ["Total Lines:  " + Thousands(overall.totalLines.GetOr(0))];
    report := report + ["Total Tokens: " + Thousands(overall.totalTokens.GetOr(0))];
    report := report + [""];
    assert report == SummaryLines(overall);

    ExtensionRowsOkIffNoneRaises(data.byExtension);
    var withExtensions := AppendExtensionSection(report, data.byExtension);
    if withExtensions.None? {
      return None;
    }
    report := AppendFilesSection(withExtensions.value, data.topFiles);
    r := Some(Join(report, '\n'));
  }

  /** The by-extension part of `format_analysis_report`; `None` where `row['tokens']` raises. */
  method AppendExtensionSection(report: seq<string>, byExtension: seq<ExtensionRow>) returns (r: Option<seq<string>>)
    ensures r == if ExtensionRowsOk(byExtension) then Some(report + ExtensionSection(byExtension)) else None
  {
    if |byExtension| == 0 {
      assert report + ExtensionSection(byExtension) == report;
      return Some(report);
    }
    var lines := report;
    lines := lines + [ExtensionTitle(|byExtension|)];
    lines := lines + [ExtensionHeader];
    lines := lines + [ExtensionRule];
    var withRows := AppendExtensionLines(lines, byExtension);
    if withRows.None? {
      return None;
    }
    lines := withRows.value + [""];
    assert lines == report + ExtensionSection(byExtension);
    return Some(lines);
  }

  /** The loop over the by-extension rows, one line per row with the average computed in place. */
  method AppendExtensionLines(report: seq<string>, byExtension: seq<ExtensionRow>) returns (r: Option<seq<string>>)
    ensures r == if ExtensionRowsOk(byExtension) then Some(report + Lines(byExtension, ExtensionLine)) else None
  {
    var lines := report;
    var i := 0;
    while i < |byExtension|
      invariant 0 <= i <= |byExtension|
      invariant ExtensionRowsOk(byExtension[..i])
      invariant lines == report + Lines(byExtension[..i], ExtensionLine)
    {
      var row := byExtension[i];
      var average := AverageOf(row);
      if average.None? {
        RaisingRowSpoilsAll(byExtension, i);
        return None;
      }
      LinesSnoc(byExtension, i, ExtensionLine);
      ExtensionRowsOkSnoc(byExtension, i);
      lines := lines + [ExtensionCells(row, average.value)];
      i := i + 1;
    }
    assert byExtension[..i] == byExtension;
    return Some(lines);
  }

  /** The average cell of one row; `row["tokens"]` raises when the row has files but no tokens. */
  method AverageOf(row: ExtensionRow) returns (average: Option<string>)
    ensures RaisesKeyError(row) <==> average.None?
    ensures average.Some? ==> average.value == AverageCell(row.fileCount.GetOr(0), row.tokens.GetOr(0))
  {
    var fileCount := row.fileCount.GetOr(0);
    if fileCount > 0 {
      if row.tokens.None? {
        return None;
      }
      average := Some(FormatQuotient(row.tokens.value, fileCount));
    } else {
      average := Some("0");
    }
  }


  /** The largest-files part of `format_analysis_report`. */
  method AppendFilesSection(report: seq<string>, topFiles: seq<FileRow>) returns (r: seq<string>)
    ensures r == report + FilesSection(topFiles)
  {
    r := report;
    if |topFiles| == 0 {
      return;
    }
    r := r + [FilesTitle(|topFiles|)];
    r := r + [FilesHeader];
    r := r + [FilesRule];
    r := AppendFileLines(r, topFiles);
  }

  /** The loop over the largest files, one line per file with long paths shortened. */
  method AppendFileLines(report: seq<string>, topFiles: seq<FileRow>) returns (r: seq<string>)
    ensures r == report + Lines(topFiles, FileLine)
  {
    r := report;
    var i := 0;
    while i < |topFiles|
      invariant 0 <= i <= |topFiles|
      invariant r == report + Lines(topFiles[..i], FileLine)
    {
      var row := topFiles[i];
      var pathStr := ShownPath(row.path.GetOr(""));
      LinesSnoc(topFiles, i, FileLine);
      r := r + [FileCells(pathStr, row)];
      i := i + 1;
    }
    assert topFiles[..i] == topFiles;
  }
  /** The path cell's text: a path longer than 38 characters keeps its last 35 behind "...". */
  method ShownPath(path: string) returns (shown: string)
    ensures shown == TruncatedPath(path)
  {
    shown := path;
    if |shown| > 38 {
      shown := "..." + shown[|shown| - 35..];
    }
  }

}
