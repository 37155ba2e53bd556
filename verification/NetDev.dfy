/**
 The interface counters of the triage report (linux_info_mcp/tools/triage.py, _parse_net_errors): the
 rows of a text, and of the table that the kernel prints.
 */
module NetDev {
  import opened Wrappers
  import opened Text
  import opened Numbers
  import opened Warnings

  // ----- interface counters

  /** The row of one line of /proc/net/dev, unless it is short, not numeric or the loopback. */
  function ReadNic(py: Python, line: string): Option<Nic> {
    var colon := Find(line, ':');
    if colon == |line| then None
    else
      var name, f := Strip(line[..colon]), Split(line[colon + 1..]);
      if name == "lo" || |f| < 16 then None
      else
        match (ReadInt(py, f[1]), ReadInt(py, f[2]), ReadInt(py, f[3]),
               ReadInt(py, f[9]), ReadInt(py, f[10]), ReadInt(py, f[11]))
        case (Some(rp), Some(re), Some(rd), Some(tp), Some(te), Some(td)) => Some(Nic(name, rp, re, rd, tp, te, td))
        case _ => None
  }

  function NicRows(py: Python, lines: seq<string>): (rows: seq<Option<Nic>>)
    ensures |rows| == |lines|
  {
    seq(|lines|, i requires 0 <= i < |lines| => ReadNic(py, lines[i]))
  }

  function Somes<T>(rows: seq<Option<T>>): seq<T> {
    if rows == [] then []
    else
      var front := Somes(rows[..|rows| - 1]);
      match rows[|rows| - 1]
      case None => front
      case Some(row) => front + [row]
  }

  function ReadNics(py: Python, lines: seq<string>): seq<Nic> { Somes(NicRows(py, lines)) }

  method ParseNetErrors(py: Python, text: string) returns (out: seq<Nic>)
    ensures out == ReadNics(py, SplitLines(text))
  {
    out := [];
    var lines := SplitLines(text);
    for i := 0 to |lines|
      invariant out == Somes(NicRows(py, lines)[..i])
    {
      assert NicRows(py, lines)[..i + 1][..i] == NicRows(py, lines)[..i];
      var nic := ReadNic(py, lines[i]);
      if nic.None? {
        continue;
      }
      out := out + [nic.value];
    }
    assert NicRows(py, lines)[..|lines|] == NicRows(py, lines);
  }

  // ----- rows that make the rules raise

  /** A line whose row makes the interface rule raise. */
  predicate IsBadLine(py: Python, line: string) {
    ReadNic(py, line).Some? && IsBadNic(py, ReadNic(py, line).value)
  }

  lemma {:induction false} InSomes<T>(rows: seq<Option<T>>, value: T)
    ensures value in Somes(rows) <==> Some(value) in rows
  {
    if rows != [] {
      var n := |rows| - 1;
      InSomes(rows[..n], value);
      assert rows == rows[..n] + [rows[n]];
    }
  }

  lemma {:induction false} BadRowIff(py: Python, lines: seq<string>)
    ensures (exists i :: 0 <= i < |ReadNics(py, lines)| && IsBadNic(py, ReadNics(py, lines)[i])) <==>
            exists i :: 0 <= i < |lines| && IsBadLine(py, lines[i])
  {
    var nics := ReadNics(py, lines);
    forall i | 0 <= i < |nics| ensures exists j :: 0 <= j < |lines| && ReadNic(py, lines[j]) == Some(nics[i]) {
      InSomes(NicRows(py, lines), nics[i]);
      var j :| 0 <= j < |lines| && NicRows(py, lines)[j] == Some(nics[i]);
    }
    forall j | 0 <= j < |lines| && ReadNic(py, lines[j]).Some? ensures ReadNic(py, lines[j]).value in nics {
      assert NicRows(py, lines)[j] == Some(ReadNic(py, lines[j]).value);
      InSomes(NicRows(py, lines), ReadNic(py, lines[j]).value);
    }
  }

  // ----- joining and stripping a text changes no row

  function RowOf(py: Python, line: string): seq<Nic> { match ReadNic(py, line) case None => [] case Some(nic) => [nic] }

  /** The rows of a text. */
  function TextRows(py: Python, s: string): seq<Nic> { ReadNics(py, SplitLines(s)) }

  lemma {:induction false} SomesCons<T>(row: Option<T>, rows: seq<Option<T>>)
    ensures Somes([row] + rows) == (match row case None => [] case Some(v) => [v]) + Somes(rows)
  {
    var all := [row] + rows;
    if rows == [] {
      assert all == [row] && all[..0] == [];
    } else {
      assert all[..|all| - 1] == [row] + rows[..|rows| - 1];
      SomesCons(row, rows[..|rows| - 1]);
    }
  }

  lemma {:induction false} NicRowsCons(py: Python, line: string, more: seq<string>)
    ensures NicRows(py, [line] + more) == [ReadNic(py, line)] + NicRows(py, more)
  {}

  lemma {:induction false} ReadNicsCons(py: Python, line: string, more: seq<string>)
    ensures ReadNics(py, [line] + more) == RowOf(py, line) + ReadNics(py, more)
  {
    NicRowsCons(py, line, more);
    SomesCons(ReadNic(py, line), NicRows(py, more));
  }

  lemma {:induction false} BlankLineHasNoRow(py: Python, line: string)
    requires ':' !in line
    ensures RowOf(py, line) == []
  {}

  /** White space in front of a line changes nothing in its row. */
  lemma {:induction false} PadKeepsRow(py: Python, c: char, line: string)
    requires IsSpace(c)
    ensures ReadNic(py, [c] + line) == ReadNic(py, line)
  {
    var padded, n := [c] + line, Find(line, ':');
    assert padded[1..] == line;
    assert Find(padded, ':') == 1 + n;
    assert padded[..1 + n] == [c] + line[..n] && padded[1 + n..] == line[n..];
    assert ([c] + line[..n])[1..] == line[..n];
    if n < |line| { assert padded[2 + n..] == line[n + 1..]; }
  }

  lemma {:induction false} FindBefore(line: string, c: char)
    requires c != ':'
    ensures Find(line + [c], ':') == if ':' in line then Find(line, ':') else |line| + 1
  {
    if line == "" {
      assert (line + [c])[1..] == "";
    } else if line[0] != ':' {
      assert (line + [c])[1..] == line[1..] + [c];
      FindBefore(line[1..], c);
    }
  }

  lemma {:induction false} FindsColon(line: string)
    ensures Find(line, ':') < |line| <==> ':' in line
  {}

  /** Nor does white space behind it. */
  lemma {:induction false} TailKeepsRow(py: Python, line: string, c: char)
    requires IsSpace(c)
    ensures ReadNic(py, line + [c]) == ReadNic(py, line)
  {
    FindsColon(line);
    FindsColon(line + [c]);
    if ':' in line {
      var n := Find(line, ':');
      FindBefore(line, c);
      var head, rest := line[..n], line[n + 1..];
      ColumnsBehind(py, head, rest, c);
      CutAtColon(line, n, c);
    }
  }

  lemma {:induction false} CutAtColon(line: string, n: nat, c: char)
    requires n < |line| && line[n] == ':'
    ensures line == line[..n] + ":" + line[n + 1..]
    ensures line + [c] == line[..n] + ":" + (line[n + 1..] + [c])
  {}

  lemma {:induction false} ColumnsBehind(py: Python, head: string, rest: string, c: char)
    requires IsSpace(c) && ':' !in head
    ensures ReadNic(py, head + ":" + (rest + [c])) == ReadNic(py, head + ":" + rest)
  {
    RowParts(head, rest);
    RowParts(head, rest + [c]);
    SplitIgnoresTail(rest, [c]);
  }

  lemma {:induction false} RowParts(head: string, rest: string)
    requires ':' !in head
    ensures var line := head + ":" + rest;
            Find(line, ':') == |head| < |line| && line[..|head|] == head && line[|head| + 1..] == rest
  {
    FindExact(head, ':', rest);
    assert head + ":" + rest == head + [':'] + rest;
  }

  /** The rows of a text are that of its first line and those of the rest. */
  lemma {:induction false} TextRowsNext(py: Python, s: string)
    requires s != ""
    ensures TextRows(py, s) == RowOf(py, s[..LineLength(s)]) + TextRows(py, AfterLine(s))
  {
    ReadNicsCons(py, s[..LineLength(s)], SplitLines(AfterLine(s)));
  }

  lemma {:induction false} RowlessFirst(py: Python, s: string, line: string)
    requires s != "" && line == s[..LineLength(s)] && ':' !in line
    ensures TextRows(py, s) == TextRows(py, AfterLine(s))
  {
    TextRowsNext(py, s);
    BlankLineHasNoRow(py, line);
    assert [] + TextRows(py, AfterLine(s)) == TextRows(py, AfterLine(s));
  }

  /** A character that breaks no line lengthens the first line and leaves what follows it alone. */
  lemma {:induction false} PaddedFirst(s: string)
    requires |s| > 1 && !IsBreak(s[0])
    ensures s[..LineLength(s)] == [s[0]] + s[1..][..LineLength(s[1..])] && AfterLine(s) == AfterLine(s[1..])
  {
    var u, n := s[1..], LineLength(s[1..]);
    assert LineLength(s) == 1 + n;
    assert n < |u| ==> s[1 + n] == u[n];
    assert n + 1 < |u| ==> s[2 + n] == u[n + 1];
  }

  lemma {:induction false} LeadingBreak(py: Python, s: string)
    requires s != "" && IsBreak(s[0])
    ensures TextRows(py, s) == TextRows(py, s[1..])
  {
    assert LineLength(s) == 0;
    RowlessFirst(py, s, "");
    if s[0] == '\r' && |s| > 1 && s[1] == '\n' {
      var u := s[1..];
      assert LineLength(u) == 0;
      RowlessFirst(py, u, "");
      assert AfterLine(u) == u[1..] == s[2..];
    }
  }

  lemma {:induction false} LeadingBlank(py: Python, s: string)
    requires s != "" && IsSpace(s[0]) && !IsBreak(s[0])
    ensures TextRows(py, s) == TextRows(py, s[1..])
  {
    var u := s[1..];
    if u == "" {
      assert LineLength(u) == 0 && LineLength(s) == 1;
      RowlessFirst(py, s, s);
    } else {
      var line := u[..LineLength(u)];
      TextRowsNext(py, s);
      TextRowsNext(py, u);
      PaddedFirst(s);
      PadKeepsRow(py, s[0], line);
    }
  }

  lemma {:induction false} LStripKeepsRows(py: Python, s: string)
    ensures TextRows(py, LStrip(s)) == TextRows(py, s)
  {
    if s != "" && IsSpace(s[0]) {
      if IsBreak(s[0]) { LeadingBreak(py, s); } else { LeadingBlank(py, s); }
      LStripKeepsRows(py, s[1..]);
    }
  }

  lemma {:induction false} LengthWithTail(s: string, c: char)
    ensures LineLength(s + [c])
         == if LineLength(s) < |s| then LineLength(s) else if IsBreak(c) then |s| else |s| + 1
  {
    if s == "" {
      assert s + [c] == [c] && LineLength([c][1..]) == 0;
    } else if !IsBreak(s[0]) {
      assert (s + [c])[1..] == s[1..] + [c];
      LengthWithTail(s[1..], c);
    }
  }

  /** White space behind the only line of a text. */
  lemma {:induction false} TailOfLine(py: Python, s: string, c: char)
    requires IsSpace(c) && LineLength(s) == |s|
    ensures TextRows(py, s + [c]) == TextRows(py, s)
  {
    var t := s + [c];
    LengthWithTail(s, c);
    TextRowsNext(py, t);
    assert AfterLine(t) == "";
    if s == "" {
      assert ':' !in t[..LineLength(t)];
      RowlessFirst(py, t, t[..LineLength(t)]);
    } else {
      TextRowsNext(py, s);
      TailKeepsRow(py, s, c);
      assert s[..|s|] == s;
      assert t[..LineLength(t)] == if IsBreak(c) then s else s + [c];
    }
  }

  /** Behind a text of more lines, white space belongs to what follows the first. */
  lemma {:induction false} TailOfRest(s: string, c: char)
    requires LineLength(s) < |s|
    ensures var t := s + [c];
            && t[..LineLength(t)] == s[..LineLength(s)]
            && (AfterLine(t) == AfterLine(s) + [c] || (AfterLine(t) == AfterLine(s) == ""))
  {
    LengthWithTail(s, c);
  }

  lemma {:induction false} TrailingSpace(py: Python, s: string, c: char)
    requires IsSpace(c)
    ensures TextRows(py, s + [c]) == TextRows(py, s)
    decreases |s|
  {
    if LineLength(s) == |s| {
      TailOfLine(py, s, c);
    } else {
      TailOfRest(s, c);
      TextRowsNext(py, s);
      TextRowsNext(py, s + [c]);
      TrailingSpace(py, AfterLine(s), c);
    }
  }

  lemma {:induction false} RStripKeepsRows(py: Python, s: string)
    ensures TextRows(py, RStrip(s)) == TextRows(py, s)
  {
    var rows := (u: string) => TextRows(py, u);
    forall u: string, c: char | IsSpace(c) ensures rows(u + [c]) == rows(u) {
      TrailingSpace(py, u, c);
    }
    RStripInvariant(rows, s);
  }

  lemma {:induction false} UnbrokenLength(line: string)
    requires NoBreak(line)
    ensures LineLength(line) == |line|
  {
    if line != "" {
      UnbrokenLength(line[1..]);
    }
  }

  lemma {:induction false} FirstLine(py: Python, line: string, rest: string)
    requires NoBreak(line)
    ensures TextRows(py, line + "\n" + rest) == RowOf(py, line) + TextRows(py, rest)
  {
    var s := line + "\n" + rest;
    assert s == line + ("\n" + rest);
    LineLengthExact(line, "\n" + rest);
    assert s[..|line|] == line && s[|line| + 1..] == rest;
    TextRowsNext(py, s);
  }

  lemma {:induction false} JoinKeepsRows(py: Python, lines: seq<string>)
    requires forall i | 0 <= i < |lines| :: NoBreak(lines[i])
    ensures TextRows(py, Join("\n", lines)) == ReadNics(py, lines)
  {
    if lines != [] {
      var line, more := lines[0], lines[1..];
      assert lines == [line] + more;
      ReadNicsCons(py, line, more);
      JoinKeepsRows(py, more);
      if more != [] {
        FirstLine(py, line, Join("\n", more));
      } else if line == "" {
        BlankLineHasNoRow(py, line);
      } else {
        UnbrokenLength(line);
        TextRowsNext(py, line);
        assert line[..|line|] == line;
      }
    }
  }

  // ----- the kernel's interface table

  /** The counters of a row, in the columns where the kernel prints them. */
  predicate Counters(texts: seq<string>, nic: Nic) {
    && |texts| >= 16
    && texts[1] == IntStr(nic.rxPackets) && texts[2] == IntStr(nic.rxErrs) && texts[3] == IntStr(nic.rxDrop)
    && texts[9] == IntStr(nic.txPackets) && texts[10] == IntStr(nic.txErrs) && texts[11] == IntStr(nic.txDrop)
  }

  /** int() reads the six counters. */
  predicate Readable(py: Python, nic: Nic) {
    && Printable(py, nic.rxPackets) && Printable(py, nic.rxErrs) && Printable(py, nic.rxDrop)
    && Printable(py, nic.txPackets) && Printable(py, nic.txErrs) && Printable(py, nic.txDrop)
  }

  lemma {:induction false} CountersRead(py: Python, nic: Nic)
    ensures var read := n => ReadInt(py, IntStr(n));
            match (read(nic.rxPackets), read(nic.rxErrs), read(nic.rxDrop),
                   read(nic.txPackets), read(nic.txErrs), read(nic.txDrop))
            case (Some(rp), Some(re), Some(rd), Some(tp), Some(te), Some(td)) =>
              Readable(py, nic) && Nic(nic.iface, rp, re, rd, tp, te, td) == nic
            case _ => !Readable(py, nic)
  {
    PrintedReads(py, nic.rxPackets);
    PrintedReads(py, nic.rxErrs);
    PrintedReads(py, nic.rxDrop);
    PrintedReads(py, nic.txPackets);
    PrintedReads(py, nic.txErrs);
    PrintedReads(py, nic.txDrop);
  }

  /** A line of the table: a heading or blank line, or an interface, the loopback included, with any padding. */
  datatype TableLine =
    | Heading(text: string)
    | Interface(pad: string, gap: string, cells: seq<Cell>, tail: string, nic: Nic)

  function TableText(l: TableLine): string {
    match l
    case Heading(text) => text
    case Interface(pad, gap, cells, tail, nic) => pad + nic.iface + gap + ":" + (RowText(cells) + tail)
  }

  predicate WellFormed(l: TableLine) {
    match l
    case Heading(text) => ':' !in text
    case Interface(pad, gap, cells, tail, nic) =>
      && AllSpace(pad) && AllSpace(gap) && AllSpace(tail)
      && IsToken(nic.iface) && ':' !in nic.iface && WellSpaced(cells) && Counters(Texts(cells), nic)
  }

  lemma {:induction false} NameReads(pad: string, name: string, gap: string)
    requires AllSpace(pad) && AllSpace(gap) && IsToken(name)
    ensures Strip(pad + name + gap) == name
  {
    assert pad + name + gap == pad + (name + gap);
    LStripGap(pad, name + gap);
    assert (name + gap)[0] == name[0];
    RStripGap(name, gap);
    StripFixed(name);
  }

  /** An interface other than the loopback, whose counters are not too long. */
  predicate IsRow(py: Python, l: TableLine) { l.Interface? && l.nic.iface != "lo" && Readable(py, l.nic) }

  /** A table line reads as its own counters; headings, the loopback and counters too long read as nothing. */
  lemma {:induction false} TableLineReads(py: Python, l: TableLine)
    requires WellFormed(l)
    ensures ReadNic(py, TableText(l)) == if IsRow(py, l) then Some(l.nic) else None
  {
    match l {
      case Heading(text) =>
        FindsColon(text);
      case Interface(pad, gap, cells, tail, nic) =>
        var head, rest := pad + nic.iface + gap, RowText(cells) + tail;
        RowParts(head, rest);
        NameReads(pad, nic.iface, gap);
        SplitRow(cells, tail);
        CountersRead(py, nic);
    }
  }
}
