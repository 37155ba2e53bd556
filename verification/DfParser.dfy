/** The parser of df's output (linux_info_mcp/tools/_parsers.py, parse_df). */
module DfParser {
  import opened Wrappers
  import opened Text

  const HEADER := ["Filesystem", "1K-blocks", "Used", "Available", "Use%"]

  datatype DfRow = DfRow(fs: string, blocks: int, used: int, avail: int, usePct: int, mount: string)

  /** s.rstrip("%") */
  function TrimPercent(s: string): string {
    if s != "" && s[|s| - 1] == '%' then TrimPercent(s[..|s| - 1]) else s
  }

  /** The columns of a row as numbers; None stands for the ValueError of a refused one. */
  function RowOf(parts: seq<string>): Option<DfRow>
    requires |parts| == 6
  {
    match (PyInt(parts[1]), PyInt(parts[2]), PyInt(parts[3]), PyInt(TrimPercent(parts[4])))
    case (Some(blocks), Some(used), Some(avail), Some(pct)) =>
      Some(DfRow(parts[0], blocks, used, avail, pct, Strip(parts[5])))
    case _ => None
  }

  lemma {:induction false} SplitMaxBound(s: string, m: nat)
    ensures |SplitMax(s, m)| <= m + 1
    decreases |s|, m
  {
    LStripShrinks(s);
    var t := LStrip(s);
    if t != "" && m > 0 {
      SplitMaxBound(t[TokenLength(t)..], m - 1);
    }
  }

  function ReadRow(line: string): Option<DfRow> {
    var parts := SplitMax(line, 5);
    SplitMaxBound(line, 5);
    if |parts| < 6 then None else RowOf(parts)
  }

  /** The rows of the lines that have one, in order. */
  function ReadRows(lines: seq<string>): seq<DfRow> {
    if lines == [] then []
    else
      ReadRows(lines[..|lines| - 1])
      + match ReadRow(lines[|lines| - 1]) case Some(row) => [row] case None => []
  }

  function NonBlank(lines: seq<string>): seq<string> {
    if lines == [] then []
    else
      NonBlank(lines[..|lines| - 1]) + if Strip(lines[|lines| - 1]) == "" then [] else [lines[|lines| - 1]]
  }

  predicate HeaderOk(line: string) { PyTake(Split(line), 5) == HEADER }

  /** The rows of a report; None when its first line that is not blank is no header. */
  function RowsOfReport(stdout: string): Option<seq<DfRow>> {
    var lines := NonBlank(SplitLines(stdout));
    if lines == [] then Some([]) else if HeaderOk(lines[0]) then Some(ReadRows(lines[1..])) else None
  }

  method ParseDf(stdout: string) returns (r: Result<seq<DfRow>>)
    ensures r.Ok? <==> RowsOfReport(stdout).Some?
    ensures r.Raises? <==>
            var lines := NonBlank(SplitLines(stdout));
            lines != [] && PyTake(Split(lines[0]), 5) != ["Filesystem", "1K-blocks", "Used", "Available", "Use%"]
    ensures r.Raises? ==>
              r.error == ValueError("unexpected df header: " + Repr(NonBlank(SplitLines(stdout))[0]))
    ensures r.Ok? ==> RowsOfReport(stdout) == Some(r.value)
    ensures r.Raises? ==> r.error.ValueError?
  {
    var lines := NonBlank(SplitLines(stdout));
    if lines == [] {
      return Ok([]);
    }
    if !HeaderOk(lines[0]) {
      return Raises(ValueError("unexpected df header: " + Repr(lines[0])));
    }
    var rest, out := lines[1..], [];
    for i := 0 to |rest|
      invariant out == ReadRows(rest[..i])
    {
      assert rest[..i + 1][..i] == rest[..i];
      var row := ReadRow(rest[i]);
      if row.None? {
        continue;
      }
      out := out + [row.value];
    }
    assert rest[..|rest|] == rest;
    r := Ok(out);
  }

  // ----- printed lines

  lemma {:induction false} FirstPiece(line: string, cell: Cell, more: string, m: nat, texts: seq<string>,
      last: seq<string>)
    requires AllSpace(cell.gap) && IsToken(cell.text) && Ends(more) && line == cell.gap + cell.text + more
    requires SplitMax(more, m) == texts + last
    ensures SplitMax(line, m + 1) == [cell.text] + texts + last
  {
    FirstTokenMax(cell.gap, cell.text, more, m + 1);
    assert [cell.text] + (texts + last) == [cell.text] + texts + last;
  }

  /** The pieces of a row that fills the first columns, the rest of the line splitting into `last`. */
  lemma {:induction false} SplitMaxRow(cells: seq<Cell>, rest: string, n: nat, last: seq<string>)
    requires WellSpaced(cells) && Ends(rest) && SplitMax(rest, n) == last
    ensures SplitMax(RowText(cells) + rest, |cells| + n) == Texts(cells) + last
  {
    if cells == [] {
      assert RowText(cells) + rest == rest;
    } else {
      SplitMaxRow(cells[1..], rest, n, last);
      RowEnds(cells[1..], rest);
      RowTextCons(cells, rest);
      FirstPiece(RowText(cells) + rest, cells[0], RowText(cells[1..]) + rest, |cells| - 1 + n, Texts(cells[1..]), last);
    }
  }

  /** No outer white space and no line break; inner runs of spaces are allowed. */
  predicate IsMount(mount: string) {
    mount != "" && !IsSpace(mount[0]) && !IsSpace(mount[|mount| - 1]) && NoBreak(mount)
  }

  /** The first five columns of a row. */
  function Columns(row: DfRow): seq<string> {
    [row.fs, IntStr(row.blocks), IntStr(row.used), IntStr(row.avail), IntStr(row.usePct) + "%"]
  }

  /** Five columns of which int() refuses one that should be a number. */
  predicate Refused(columns: seq<string>) {
    |columns| == 5
    && (PyInt(columns[1]).None? || PyInt(columns[2]).None? || PyInt(columns[3]).None?
        || PyInt(TrimPercent(columns[4])).None?)
  }

  /**
   A line that prints a row; one of six or more columns whose numbers are refused, such as the second
   half of a wrapped row with a space in its mount; one too short to be a row; or a blank one.
   */
  datatype Printed =
    | PrintedRow(cells: seq<Cell>, gap: string, tail: string, row: DfRow)
    | PrintedRefused(cells: seq<Cell>, gap: string, last: string, tail: string)
    | PrintedShort(cells: seq<Cell>, tail: string)
    | PrintedBlank(text: string)

  function PrintedText(p: Printed): string {
    match p
    case PrintedRow(cells, gap, tail, row) => RowText(cells) + (gap + row.mount + tail)
    case PrintedRefused(cells, gap, last, tail) => RowText(cells) + (gap + last + tail)
    case PrintedShort(cells, tail) => RowText(cells) + tail
    case PrintedBlank(text) => text
  }

  predicate WellPrinted(p: Printed) {
    && NoBreak(PrintedText(p))
    && match p
       case PrintedRow(cells, gap, tail, row) =>
         && WellSpaced(cells) && AllSpace(gap) && gap != "" && AllSpace(tail)
         && Texts(cells) == Columns(row) && IsMount(row.mount)
       case PrintedRefused(cells, gap, last, tail) =>
         && WellSpaced(cells) && AllSpace(gap) && gap != "" && AllSpace(tail)
         && Refused(Texts(cells)) && IsMount(last)
       case PrintedShort(cells, tail) => WellSpaced(cells) && AllSpace(tail) && 0 < |cells| <= 5
       case PrintedBlank(text) => AllSpace(text)
  }

  lemma {:induction false} TrimOnePercent(n: int)
    ensures TrimPercent(IntStr(n) + "%") == IntStr(n)
  {
    var s := IntStr(n);
    assert (s + "%")[..|s|] == s;
    assert s[|s| - 1] != '%';
  }

  lemma {:induction false} MountReads(gap: string, mount: string, tail: string)
    requires AllSpace(gap) && AllSpace(tail) && IsMount(mount)
    ensures SplitMax(gap + mount + tail, 0) == [mount + tail] && Strip(mount + tail) == mount
  {
    assert gap + mount + tail == gap + (mount + tail);
    LStripGap(gap, mount + tail);
    assert LStrip(mount + tail) == mount + tail;
    RStripGap(mount, tail);
    StripFixed(mount);
  }

  lemma {:induction false} ColumnsRead(row: DfRow, last: string)
    requires Strip(last) == row.mount
    ensures RowOf(Columns(row) + [last]) == Some(row)
  {
    PyIntOfIntStr(row.blocks);
    PyIntOfIntStr(row.used);
    PyIntOfIntStr(row.avail);
    PyIntOfIntStr(row.usePct);
    TrimOnePercent(row.usePct);
  }

  /** What a printed line reads as: its own row, or nothing. */
  function Meant(p: Printed): Option<DfRow> { if p.PrintedRow? then Some(p.row) else None }

  lemma {:induction false} RowLineReads(cells: seq<Cell>, gap: string, tail: string, row: DfRow)
    requires WellPrinted(PrintedRow(cells, gap, tail, row))
    ensures ReadRow(RowText(cells) + (gap + row.mount + tail)) == Some(row)
  {
    var rest, last := gap + row.mount + tail, row.mount + tail;
    MountReads(gap, row.mount, tail);
    SplitMaxRow(cells, rest, 0, [last]);
    assert |cells| == 5;
    assert SplitMax(RowText(cells) + rest, 5) == Columns(row) + [last];
    ColumnsRead(row, last);
  }

  lemma {:induction false} RefusedLineReads(cells: seq<Cell>, gap: string, last: string, tail: string)
    requires WellPrinted(PrintedRefused(cells, gap, last, tail))
    ensures ReadRow(RowText(cells) + (gap + last + tail)) == None
  {
    MountReads(gap, last, tail);
    SplitMaxRow(cells, gap + last + tail, 0, [last + tail]);
    assert |cells| == 5;
    assert (Texts(cells) + [last + tail])[..5] == Texts(cells);
  }

  lemma {:induction false} ShortLineReads(cells: seq<Cell>, tail: string)
    requires WellSpaced(cells) && AllSpace(tail) && |cells| <= 5
    ensures ReadRow(RowText(cells) + tail) == None
  {
    SplitMaxBlank(tail, 5 - |cells|);
    SplitMaxRow(cells, tail, 5 - |cells|, []);
    assert |cells| + (5 - |cells|) == 5;
  }

  lemma {:induction false} PrintedReads(p: Printed)
    requires WellPrinted(p)
    ensures ReadRow(PrintedText(p)) == Meant(p)
  {
    match p {
      case PrintedRow(cells, gap, tail, row) => RowLineReads(cells, gap, tail, row);
      case PrintedRefused(cells, gap, last, tail) => RefusedLineReads(cells, gap, last, tail);
      case PrintedShort(cells, tail) => ShortLineReads(cells, tail);
      case PrintedBlank(text) => SplitMaxBlank(text, 5);
    }
  }

  lemma {:induction false} SplitMaxBlank(s: string, m: nat)
    requires AllSpace(s)
    ensures SplitMax(s, m) == []
  {
    LStripGap(s, "");
    assert s + "" == s;
  }

  function PrintedTexts(ps: seq<Printed>): seq<string> {
    if ps == [] then [] else PrintedTexts(ps[..|ps| - 1]) + [PrintedText(ps[|ps| - 1])]
  }

  function RowsOf(ps: seq<Printed>): seq<DfRow> {
    if ps == [] then []
    else RowsOf(ps[..|ps| - 1]) + match Meant(ps[|ps| - 1]) case Some(row) => [row] case None => []
  }

  lemma {:induction false} BlankIff(s: string)
    ensures Strip(s) == "" <==> AllSpace(s)
  {
    if s != "" && IsSpace(s[0]) {
      BlankIff(s[1..]);
      assert s == [s[0]] + s[1..];
    } else if s != "" {
      RStripKeeps(s[..1], s[1..]);
      assert s == s[..1] + s[1..];
    }
  }

  /** One more line: its row, if it has one, joins the rows. */
  lemma {:induction false} RowsReadNext(lines: seq<string>, text: string)
    ensures ReadRows(NonBlank(lines + [text]))
         == ReadRows(NonBlank(lines)) + match ReadRow(text) case Some(row) => [row] case None => []
  {
    assert (lines + [text])[..|lines|] == lines;
    if Strip(text) == "" {
      BlankIff(text);
      SplitMaxBlank(text, 5);
      assert NonBlank(lines + [text]) == NonBlank(lines);
    } else {
      assert (NonBlank(lines) + [text])[..|NonBlank(lines)|] == NonBlank(lines);
    }
  }

  lemma {:induction false} RowsRead(ps: seq<Printed>)
    requires forall i | 0 <= i < |ps| :: WellPrinted(ps[i])
    ensures ReadRows(NonBlank(PrintedTexts(ps))) == RowsOf(ps)
  {
    if ps != [] {
      var last := ps[|ps| - 1];
      RowsRead(ps[..|ps| - 1]);
      PrintedReads(last);
      RowsReadNext(PrintedTexts(ps[..|ps| - 1]), PrintedText(last));
    }
  }

  lemma {:induction false} PrintedNoBreak(ps: seq<Printed>)
    requires forall i | 0 <= i < |ps| :: WellPrinted(ps[i])
    ensures forall i | 0 <= i < |PrintedTexts(ps)| :: NoBreak(PrintedTexts(ps)[i])
  {
    if ps != [] {
      PrintedNoBreak(ps[..|ps| - 1]);
    }
  }

  lemma {:induction false} NonBlankAppend(a: seq<string>, b: seq<string>)
    ensures NonBlank(a + b) == NonBlank(a) + NonBlank(b)
  {
    if b == [] {
      assert a + b == a;
    } else {
      assert (a + b)[..|a + b| - 1] == a + b[..|b| - 1];
      NonBlankAppend(a, b[..|b| - 1]);
    }
  }

  /** The header line, with any spacing and any columns after the fifth. */
  predicate IsHeader(cells: seq<Cell>, tail: string, more: seq<string>) {
    && WellSpaced(cells) && AllSpace(tail) && NoBreak(RowText(cells) + tail)
    && Texts(cells) == ["Filesystem", "1K-blocks", "Used", "Available", "Use%"] + more
  }

  function Report(header: string, ps: seq<Printed>): string { Unlines([header] + PrintedTexts(ps)) }

  lemma {:induction false} HeaderReads(cells: seq<Cell>, tail: string, more: seq<string>)
    requires IsHeader(cells, tail, more)
    ensures HeaderOk(RowText(cells) + tail) && Strip(RowText(cells) + tail) != ""
  {
    SplitRow(cells, tail);
    assert (HEADER + more)[..5] == HEADER;
    BlankIff(RowText(cells) + tail);
    if Strip(RowText(cells) + tail) == "" {
      SplitBlank(RowText(cells) + tail);
    }
  }

  /**
   The round trip: after a header, a report of rows in any spacing reads as those rows, whatever short,
   refused and blank lines stand among them. Mount points keep their inner spaces.
   */
  lemma {:induction false} DfRoundTrip(cells: seq<Cell>, tail: string, more: seq<string>, ps: seq<Printed>)
    requires IsHeader(cells, tail, more)
    requires forall i | 0 <= i < |ps| :: WellPrinted(ps[i])
    ensures RowsOfReport(Report(RowText(cells) + tail, ps)) == Some(RowsOf(ps))
  {
    var header, texts := RowText(cells) + tail, PrintedTexts(ps);
    PrintedNoBreak(ps);
    SplitUnlines([header] + texts);
    HeaderReads(cells, tail, more);
    NonBlankAppend([header], texts);
    assert NonBlank([header]) == [header] by { assert [header][..0] == []; }
    assert ([header] + NonBlank(texts))[1..] == NonBlank(texts);
    RowsRead(ps);
  }
}
