/**
 The triage parser (linux_info_mcp/tools/triage.py, parse_triage): sections, facts and warnings put
 together. The parsers that can raise are those of ProcFiles, the interface counters those of NetDev; the
 other probes' parsers, which catch what int() and float() raise, are any functions.
 */
module Triage {
  import opened Wrappers
  import opened Text
  import opened Numbers
  import opened Sections
  import opened Warnings
  import opened ProcFiles
  import opened NetDev

  // ----- the whole report

  /**
   The parsers of the other sections, each a function of its section's text, and the conversions of the
   Python they run on.
   */
  datatype Probes = Probes(
    py: Python,
    load1: string -> Option<real>, load5: string -> Option<real>, load15: string -> Option<real>,
    disks: string -> seq<Disk>, failedUnits: string -> seq<string>, psiSomeAvg10: string -> Option<real>,
    oom: string -> seq<string>, zombies: string -> nat, dstates: string -> nat,
    clockOffset: string -> Option<real>, leap: string -> Option<string>, rebootRequired: string -> bool,
    topCpu: string -> seq<Proc>)

  function SectionText(sections: map<string, seq<string>>, name: string): string {
    Strip(Join("\n", if name in sections then sections[name] else []))
  }

  function SectionLines(sections: map<string, seq<string>>, name: string): seq<string> {
    SplitLines(SectionText(sections, name))
  }

  function StallsOf(p: Probes, sections: map<string, seq<string>>): seq<Stall> {
    [Stall("cpu", p.psiSomeAvg10(SectionText(sections, "psi_cpu"))),
     Stall("memory", p.psiSomeAvg10(SectionText(sections, "psi_memory"))),
     Stall("io", p.psiSomeAvg10(SectionText(sections, "psi_io")))]
  }

  function NicsOf(py: Python, sections: map<string, seq<string>>): seq<Nic> {
    ReadNics(py, SectionLines(sections, "net_dev"))
  }

  function Entry(d: map<string, nat>, key: string): Option<nat> { if key in d then Some(d[key]) else None }

  /** The facts, once the numbers of four probes have been read. */
  function FactsFrom(p: Probes, sections: map<string, seq<string>>, mem: map<string, nat>, nproc: Option<nat>,
                     conntrack: Conntrack, taint: Option<nat>): Facts {
    var states, clock := SectionText(sections, "ps_states"), SectionText(sections, "clock");
    var loadavg := SectionText(sections, "loadavg");
    Facts(
      p.load1(loadavg), p.load5(loadavg), p.load15(loadavg), nproc,
      Entry(mem, "MemTotal"), Entry(mem, "MemAvailable"), Entry(mem, "SwapTotal"), Entry(mem, "SwapFree"),
      p.disks(SectionText(sections, "df")), p.failedUnits(SectionText(sections, "failed_units")),
      StallsOf(p, sections),
      p.oom(SectionText(sections, "oom")), p.disks(SectionText(sections, "df_inodes")),
      p.zombies(states), p.dstates(states), p.clockOffset(clock), p.leap(clock),
      conntrack.count, conntrack.max,
      p.rebootRequired(SectionText(sections, "reboot_required")),
      taint, NicsOf(p.py, sections), p.topCpu(SectionText(sections, "top_cpu")))
  }

  /** The facts of a report, or the exception of the first number that is too long. */
  function FactsOf(p: Probes, sections: map<string, seq<string>>): Result<Facts> {
    match MemoryOf(p.py, SectionLines(sections, "meminfo"))
    case Raises(e) => Raises(e)
    case Ok(mem) =>
      match FirstInt(p.py, Split(SectionText(sections, "nproc")))
      case Raises(e) => Raises(e)
      case Ok(nproc) =>
        match ConntrackOf(p.py, SectionLines(sections, "conntrack"))
        case Raises(e) => Raises(e)
        case Ok(conntrack) =>
          match FirstInt(p.py, Split(SectionText(sections, "kernel_taint")))
          case Raises(e) => Raises(e)
          case Ok(taint) => Ok(FactsFrom(p, sections, mem, nproc, conntrack, taint))
  }

  datatype Report = Report(warnings: seq<Warning>, facts: Facts)

  /** What a text is parsed to: its facts and their warnings, or the exception that ends the parse. */
  function TriageOf(p: Probes, text: string): Result<Report> {
    match FactsOf(p, SectionsOf(SplitLines(text)))
    case Raises(e) => Raises(e)
    case Ok(facts) =>
      match RulesOf(p.py, facts)
      case Raises(e) => Raises(e)
      case Ok(warnings) => Ok(Report(warnings, facts))
  }

  method ParseTriage(p: Probes, text: string) returns (r: Result<Report>)
    ensures r == TriageOf(p, text)
  {
    var sections := SplitSections(text);
    var mem := ParseMeminfo(p.py, SectionText(sections, "meminfo"));
    if mem.Raises? {
      return Raises(mem.error);
    }
    var nproc := ParseFirstInt(p.py, SectionText(sections, "nproc"));
    if nproc.Raises? {
      return Raises(nproc.error);
    }
    var conntrack := ParseConntrack(p.py, SectionText(sections, "conntrack"));
    if conntrack.Raises? {
      return Raises(conntrack.error);
    }
    var taint := ParseFirstInt(p.py, SectionText(sections, "kernel_taint"));
    if taint.Raises? {
      return Raises(taint.error);
    }
    var nics := ParseNetErrors(p.py, SectionText(sections, "net_dev"));
    var facts := FactsFrom(p, sections, mem.value, nproc.value, conntrack.value, taint.value).(nics := nics);
    var warnings := BuildWarnings(p.py, facts);
    match warnings {
      case Ok(ws) => r := Ok(Report(ws, facts));
      case Raises(e) => r := Raises(e);
    }
  }

  /** The order in which the probes printed their sections does not matter. */
  lemma {:induction false} OrderOfProbesIsIrrelevant(p: Probes, before: seq<string>, ss: seq<Section>,
      ahead: seq<string>, ts: seq<Section>)
    requires NoMarkers(before) && forall i | 0 <= i < |before| :: NoBreak(before[i])
    requires NoMarkers(ahead) && forall i | 0 <= i < |ahead| :: NoBreak(ahead[i])
    requires DistinctNames(ss) && forall i | 0 <= i < |ss| :: WellPrinted(ss[i])
    requires multiset(ss) == multiset(ts)
    ensures TriageOf(p, Printed(before, ss)) == TriageOf(p, Printed(ahead, ts))
  {
    OrderIsIrrelevant(before, ss, ahead, ts);
  }

  // ----- when the parser raises

  /** A number that no handler guards has more digits than int() converts. */
  predicate HasLongNumber(py: Python, sections: map<string, seq<string>>) {
    var memory, conntrack := SectionLines(sections, "meminfo"), SectionLines(sections, "conntrack");
    || (exists i :: 0 <= i < |memory| && IsLongMemoryLine(py, memory[i]))
    || FirstIsLong(py, Split(SectionText(sections, "nproc")))
    || (exists i :: 0 <= i < |conntrack| && IsLongLine(py, conntrack[i]))
    || FirstIsLong(py, Split(SectionText(sections, "kernel_taint")))
  }

  lemma {:induction false} FactsRaiseIff(p: Probes, sections: map<string, seq<string>>)
    ensures FactsOf(p, sections).Raises? <==> HasLongNumber(p.py, sections)
    ensures FactsOf(p, sections).Raises? ==> FactsOf(p, sections).error == TOO_MANY_DIGITS
    ensures FactsOf(p, sections).Ok? ==> FactsOf(p, sections).value.nics == NicsOf(p.py, sections)
  {
    MemoryRaisesIff(p.py, SectionLines(sections, "meminfo"));
    FirstIntRaisesIff(p.py, Split(SectionText(sections, "nproc")));
    ConntrackRaisesIff(p.py, SectionLines(sections, "conntrack"));
    FirstIntRaisesIff(p.py, Split(SectionText(sections, "kernel_taint")));
  }

  /** A ratio of the facts of a report is no float. */
  predicate RatioLeavesFloats(p: Probes, sections: map<string, seq<string>>) {
    FactsOf(p, sections).Ok? && HasHugeRatio(p.py, FactsOf(p, sections).value)
  }

  /**
   For every text: parsing raises if and only if a number read outside any handler is too long, or a
   ratio of the facts is no float, or some line of the net_dev section reads as a bad row. A long number
   is reported first, a ratio second.
   */
  lemma {:induction false} RaisesIff(p: Probes, text: string)
    ensures var sections := SectionsOf(SplitLines(text));
            var lines := SectionLines(sections, "net_dev");
            && (TriageOf(p, text).Raises? <==>
                  || HasLongNumber(p.py, sections)
                  || RatioLeavesFloats(p, sections)
                  || exists i :: 0 <= i < |lines| && IsBadLine(p.py, lines[i]))
            && (HasLongNumber(p.py, sections) ==> TriageOf(p, text) == Raises(TOO_MANY_DIGITS))
            && (RatioLeavesFloats(p, sections) ==> IsOverflow(TriageOf(p, text).error))
  {
    var sections := SectionsOf(SplitLines(text));
    FactsRaiseIff(p, sections);
    BadRowIff(p.py, SectionLines(sections, "net_dev"));
    if FactsOf(p, sections).Ok? {
      RulesRaiseIff(p.py, FactsOf(p, sections).value);
    }
  }

  // ----- the same for a printed report

  /** The rows of a section whose lines hold no break are those of its lines. */
  lemma {:induction false} SectionRows(py: Python, sections: map<string, seq<string>>)
    requires "net_dev" in sections ==>
               forall i | 0 <= i < |sections["net_dev"]| :: NoBreak(sections["net_dev"][i])
    ensures NicsOf(py, sections) == ReadNics(py, if "net_dev" in sections then sections["net_dev"] else [])
  {
    var lines := if "net_dev" in sections then sections["net_dev"] else [];
    var text := Join("\n", lines);
    JoinKeepsRows(py, lines);
    LStripKeepsRows(py, text);
    RStripKeepsRows(py, LStrip(text));
  }

  /** Some line of a section of that name is bad. */
  predicate HasBadLine(py: Python, ss: seq<Section>) {
    exists k, i ::
      0 <= k < |ss| && ss[k].name == "net_dev" && 0 <= i < |ss[k].body| && IsBadLine(py, ss[k].body[i])
  }

  /** The same condition for a printed report, on the very lines of its net_dev section. */
  lemma {:induction false} PrintedRaisesIff(p: Probes, preamble: seq<string>, ss: seq<Section>)
    requires NoMarkers(preamble) && forall i | 0 <= i < |preamble| :: NoBreak(preamble[i])
    requires DistinctNames(ss) && forall i | 0 <= i < |ss| :: WellPrinted(ss[i])
    ensures var sections := SectionsOf(SplitLines(Printed(preamble, ss)));
            TriageOf(p, Printed(preamble, ss)).Raises? <==>
            HasLongNumber(p.py, sections) || RatioLeavesFloats(p, sections) || HasBadLine(p.py, ss)
  {
    SectionsRoundTrip(preamble, ss);
    var sections := SectionsOf(SplitLines(Printed(preamble, ss)));
    var body := if "net_dev" in sections then sections["net_dev"] else [];
    RaisesIff(p, Printed(preamble, ss));
    SectionRows(p.py, sections);
    BadRowIff(p.py, SectionLines(sections, "net_dev"));
    BadRowIff(p.py, body);
    if "net_dev" in sections {
      var k :| 0 <= k < |ss| && ss[k].name == "net_dev";
      assert body == ss[k].body;
    }
  }

  /**
   A report with an interface table, headings, padding and loopback included, is parsed without an
   exception if and only if no number elsewhere is too long, no ratio elsewhere leaves the floats, and no
   row of the table reads -1 packets or has losses out of range.
   */
  lemma {:induction false} TableRaisesIff(p: Probes, preamble: seq<string>, ss: seq<Section>, k: nat,
      table: seq<TableLine>)
    requires NoMarkers(preamble) && forall i | 0 <= i < |preamble| :: NoBreak(preamble[i])
    requires DistinctNames(ss) && forall i | 0 <= i < |ss| :: WellPrinted(ss[i])
    requires k < |ss| && ss[k].name == "net_dev" && |ss[k].body| == |table|
    requires forall i | 0 <= i < |table| :: WellFormed(table[i]) && ss[k].body[i] == TableText(table[i])
    ensures var sections := SectionsOf(SplitLines(Printed(preamble, ss)));
            TriageOf(p, Printed(preamble, ss)).Raises? <==>
              || HasLongNumber(p.py, sections) || RatioLeavesFloats(p, sections)
              || exists i :: 0 <= i < |table| && IsRow(p.py, table[i]) && IsBadNic(p.py, table[i].nic)
  {
    PrintedRaisesIff(p, preamble, ss);
    forall i | 0 <= i < |table|
      ensures IsBadLine(p.py, ss[k].body[i]) <==> IsRow(p.py, table[i]) && IsBadNic(p.py, table[i].nic)
    {
      TableLineReads(p.py, table[i]);
    }
  }

  // ----- reports that raise

  /** A report of one section. */
  function OneSection(name: string, body: seq<string>): string { Printed([], [Section(name, body)]) }

  lemma {:induction false} OneSectionReads(name: string, body: seq<string>)
    requires WellPrinted(Section(name, body))
    ensures SectionsOf(SplitLines(OneSection(name, body))) == map[name := body]
  {
    var ss := [Section(name, body)];
    SectionsRoundTrip([], ss);
    var d := SectionsOf(SplitLines(OneSection(name, body)));
    assert ss[0].name in d && d[name] == body;
    assert d.Keys == {name};
  }

  lemma {:induction false} MissingSection(sections: map<string, seq<string>>, name: string)
    requires name !in sections
    ensures SectionText(sections, name) == "" && SectionLines(sections, name) == []
  {}

  /** Without the sections of numbers there is no such number and no ratio. */
  lemma {:induction false} NoNumbers(p: Probes, sections: map<string, seq<string>>)
    requires "meminfo" !in sections && "nproc" !in sections && "conntrack" !in sections
    requires "kernel_taint" !in sections
    ensures FactsOf(p, sections) == Ok(FactsFrom(p, sections, map[], None, Conntrack(None, None), None))
    ensures !HasHugeRatio(p.py, FactsOf(p, sections).value)
  {
    MissingSection(sections, "meminfo");
    MissingSection(sections, "nproc");
    MissingSection(sections, "conntrack");
    MissingSection(sections, "kernel_taint");
  }

  lemma {:induction false} PlainLineIsNoMarker(line: string)
    requires line != "" && line[0] != '='
    ensures !IsMarker(line)
  {
    assert BAR[0] == '=';
  }

  lemma {:induction false} PlainSection(name: string, body: seq<string>)
    requires name != "" && NoBreak(name)
    requires forall i | 0 <= i < |body| :: body[i] != "" && body[i][0] != '=' && NoBreak(body[i])
    ensures WellPrinted(Section(name, body))
  {
    forall i | 0 <= i < |body| ensures !IsMarker(body[i]) {
      PlainLineIsNoMarker(body[i]);
    }
  }

  // a row of -1 packets

  /** One interface, all of whose counters are 0 but for -1 received packets. */
  const BAD_NIC := Nic("eth0", -1, 0, 0, 0, 0, 0)

  function BadRow(): (cells: seq<Cell>)
    ensures |cells| == 16
    ensures forall i | 0 <= i < 16 :: cells[i] == Cell(" ", if i == 1 then "-1" else "0")
  {
    seq(16, i => Cell(" ", if i == 1 then "-1" else "0"))
  }

  const BAD_HEADING := Heading("face |bytes packets errs drop")

  lemma {:induction false} TextsAt(cells: seq<Cell>, i: nat)
    requires i < |cells|
    ensures Texts(cells)[i] == cells[i].text
  {
    if i > 0 {
      TextsAt(cells[1..], i - 1);
    }
  }

  lemma {:induction false} BadCounters(texts: seq<string>)
    requires |texts| == 16 && forall i | 0 <= i < 16 :: texts[i] == if i == 1 then "-1" else "0"
    ensures Counters(texts, BAD_NIC)
  {
    assert NatStr(0) == "0" && NatStr(1) == "1";
    assert IntStr(-1) == "-1" && IntStr(0) == "0";
  }

  lemma {:induction false} BadTexts(cells: seq<Cell>)
    requires |cells| == 16 && forall i | 0 <= i < 16 :: cells[i].text == if i == 1 then "-1" else "0"
    ensures forall i | 0 <= i < 16 :: Texts(cells)[i] == if i == 1 then "-1" else "0"
  {
    forall i | 0 <= i < 16 ensures Texts(cells)[i] == cells[i].text {
      TextsAt(cells, i);
    }
  }

  lemma {:induction false} BadTokens()
    ensures IsToken("eth0") && ':' !in "eth0" && IsToken("-1") && IsToken("0")
    ensures ':' !in "face |bytes packets errs drop" && NoBreak("face |bytes packets errs drop")
  {}

  lemma {:induction false} RowNoBreak(cells: seq<Cell>)
    requires forall i | 0 <= i < |cells| :: NoBreak(cells[i].gap) && NoBreak(cells[i].text)
    ensures NoBreak(RowText(cells))
  {
    if cells != [] {
      RowNoBreak(cells[1..]);
    }
  }

  lemma {:induction false} BadRowIsPrinted(l: TableLine, cells: seq<Cell>)
    requires l == Interface("  ", "", cells, "", BAD_NIC) && |cells| == 16
    requires forall i | 0 <= i < 16 :: cells[i] == Cell(" ", if i == 1 then "-1" else "0")
    ensures WellFormed(l) && NoBreak(TableText(l)) && TableText(l) != "" && TableText(l)[0] == ' '
  {
    BadTokens();
    BadTexts(cells);
    BadCounters(Texts(cells));
    RowNoBreak(cells);
  }

  lemma {:induction false} LastRow(py: Python, line: string)
    ensures ReadNics(py, [line]) == RowOf(py, line)
  {
    ReadNicsCons(py, line, []);
    assert [line] + [] == [line];
    assert NicRows(py, []) == [];
  }

  lemma {:induction false} TwoRows(py: Python, a: string, b: string)
    ensures ReadNics(py, [a, b]) == RowOf(py, a) + RowOf(py, b)
  {
    LastRow(py, b);
    ReadNicsCons(py, a, [b]);
    assert [a] + [b] == [a, b];
  }

  lemma {:induction false} OneNicDecides(py: Python, facts: Facts, nic: Nic)
    requires !HasHugeRatio(py, facts) && facts.nics == [nic] && IsBadNic(py, nic)
    ensures RulesOf(py, facts).Raises? && NicFault(py, nic) == Some(RulesOf(py, facts).error)
  {
    FactsFaultIff(py, facts);
    NicFaultIff(py, nic);
    FirstFault(py, facts.nics, 0);
  }

  lemma {:induction false} HeadedRows(py: Python, heading: TableLine, row: TableLine, body: seq<string>)
    requires heading.Heading? && WellFormed(heading) && WellFormed(row) && IsRow(py, row)
    requires body == [TableText(heading), TableText(row)] && NoBreak(body[0]) && NoBreak(body[1])
    ensures NicsOf(py, map["net_dev" := body]) == [row.nic]
  {
    SectionRows(py, map["net_dev" := body]);
    TableLineReads(py, heading);
    TableLineReads(py, row);
    TwoRows(py, body[0], body[1]);
  }

  /** A table of a heading and a row of -1 received packets raises a division by zero. */
  lemma {:induction false} HeadedRowRaises(p: Probes, heading: TableLine, row: TableLine, body: seq<string>)
    requires heading.Heading? && WellFormed(heading) && WellFormed(row)
    requires IsRow(p.py, row) && row.nic.rxPackets == -1
    requires body == [TableText(heading), TableText(row)] && WellPrinted(Section("net_dev", body))
    ensures TriageOf(p, OneSection("net_dev", body)) == Raises(DIVISION_BY_ZERO)
  {
    var sections := map["net_dev" := body];
    OneSectionReads("net_dev", body);
    NoNumbers(p, sections);
    HeadedRows(p.py, heading, row, body);
    NicFaultIff(p.py, row.nic);
    OneNicDecides(p.py, FactsOf(p, sections).value, row.nic);
  }

  lemma {:induction false} OneDigitIsPrintable(py: Python, n: int)
    requires -10 < n < 10
    ensures Printable(py, n)
  {}

  lemma {:induction false} BadNicIsReadable(py: Python, nic: Nic)
    requires nic == BAD_NIC
    ensures Readable(py, nic) && nic.rxPackets == -1 && nic.iface != "lo"
  {
    OneDigitIsPrintable(py, -1);
    OneDigitIsPrintable(py, 0);
    assert |nic.iface| == 4;
  }

  lemma {:induction false} BadTable(heading: TableLine, row: TableLine, body: seq<string>)
    requires heading == BAD_HEADING && row == Interface("  ", "", BadRow(), "", BAD_NIC)
    requires body == [TableText(heading), TableText(row)]
    ensures heading.Heading? && WellFormed(heading) && WellFormed(row) && WellPrinted(Section("net_dev", body))
  {
    BadTokens();
    BadRowIsPrinted(row, BadRow());
    PlainSection("net_dev", body);
  }

  /** A heading and one row. */
  function BadBody(): seq<string> { [TableText(BAD_HEADING), TableText(Interface("  ", "", BadRow(), "", BAD_NIC))] }

  /** The documented promise that parsing never raises does not hold. */
  lemma {:induction false} ParseTriageCanRaise(p: Probes)
    ensures TriageOf(p, OneSection("net_dev", BadBody())) == Raises(DIVISION_BY_ZERO)
  {
    var heading, row := BAD_HEADING, Interface("  ", "", BadRow(), "", BAD_NIC);
    BadTable(heading, row, BadBody());
    BadNicIsReadable(p.py, row.nic);
    HeadedRowRaises(p, heading, row, BadBody());
  }

  // a ratio that is no float

  lemma {:induction false} DigitsAreOneToken(s: string)
    requires IsDigits(s)
    ensures Strip(s) == s && Split(s) == [s] && NoBreak(s) && IsToken(s)
  {
    assert IsToken(s);
    StripFixed(s);
    FirstToken("", s, "");
    assert "" + s + "" == s && Split("") == [];
  }

  /** A section of two numbers is their two lines. */
  lemma {:induction false} TwoNumberLines(a: string, b: string)
    requires IsDigits(a) && IsDigits(b)
    ensures SplitLines(Strip(Join("\n", [a, b]))) == [a, b]
  {
    DigitsAreOneToken(a);
    DigitsAreOneToken(b);
    var s := a + "\n" + b;
    StripFixed(s);
    assert [a, b][1..] == [b];
    assert s == a + ("\n" + b);
    LineLengthExact(a, "\n" + b);
    UnbrokenLength(b);
    assert s[..|a|] == a && s[|a| + 1..] == b && b[..|b|] == b;
    assert SplitLines(b) == [b];
  }

  lemma {:induction false} IntLinesAppend(py: Python, lines: seq<string>, n: nat)
    requires IntLines(py, lines).Ok? && Printable(py, n)
    ensures IntLines(py, lines + [NatStr(n)]) == Ok(IntLines(py, lines).value + [n])
  {
    DigitsAreOneToken(NatStr(n));
    PyNatOfNatStr(n);
    assert (lines + [NatStr(n)])[..|lines|] == lines;
  }

  lemma {:induction false} ConntrackReads(py: Python, count: nat, max: nat)
    requires Printable(py, count) && Printable(py, max)
    ensures ConntrackOf(py, [NatStr(count), NatStr(max)]) == Ok(Conntrack(Some(count), Some(max)))
  {
    IntLinesAppend(py, [], count);
    IntLinesAppend(py, [NatStr(count)], max);
    assert [] + [NatStr(count)] == [NatStr(count)];
    assert [NatStr(count)] + [NatStr(max)] == [NatStr(count), NatStr(max)];
  }

  lemma {:induction false} ConntrackFacts(p: Probes, count: nat, max: nat)
    requires Printable(p.py, count) && Printable(p.py, max)
    ensures var sections := map["conntrack" := [NatStr(count), NatStr(max)]];
            FactsOf(p, sections)
            == Ok(FactsFrom(p, sections, map[], None, Conntrack(Some(count), Some(max)), None))
  {
    var sections := map["conntrack" := [NatStr(count), NatStr(max)]];
    TwoNumberLines(NatStr(count), NatStr(max));
    ConntrackReads(p.py, count, max);
    MissingSection(sections, "meminfo");
    MissingSection(sections, "nproc");
    MissingSection(sections, "kernel_taint");
  }

  lemma {:induction false} ConntrackDecides(py: Python, f: Facts)
    requires f.nproc.None? && f.memTotal.None? && f.swapTotal.None?
    requires HugeRatio(py, f.conntrackCount, f.conntrackMax)
    ensures RulesOf(py, f) == Raises(QUOTIENT_OVERFLOW)
  {}

  /** Every conntrack count whose quotient by the maximum is no float raises as well. */
  lemma {:induction false} ConntrackCanOverflow(p: Probes, count: nat, max: nat)
    requires Printable(p.py, count) && Printable(p.py, max) && 0 < max && Huge(p.py, count, max)
    ensures TriageOf(p, OneSection("conntrack", [NatStr(count), NatStr(max)])) == Raises(QUOTIENT_OVERFLOW)
  {
    DigitsAreOneToken(NatStr(count));
    DigitsAreOneToken(NatStr(max));
    PlainSection("conntrack", [NatStr(count), NatStr(max)]);
    OneSectionReads("conntrack", [NatStr(count), NatStr(max)]);
    ConntrackFacts(p, count, max);
    ConntrackDecides(p.py, FactsOf(p, map["conntrack" := [NatStr(count), NatStr(max)]]).value);
  }

  /** Under CPython's floats and any of its digit limits there is such a count. */
  lemma {:induction false} ParseTriageCanOverflow(p: Probes)
    requires IsCPython(p.py)
    ensures TriageOf(p, OneSection("conntrack", [NatStr(p.py.range), NatStr(1)])) == Raises(QUOTIENT_OVERFLOW)
  {
    RangeIsPrintable(p.py);
    assert |NatStr(1)| == 1;
    ConntrackCanOverflow(p, p.py.range, 1);
  }

  // a number that is too long

  /** Under any digit limit, a CPU count of one digit more raises. */
  lemma {:induction false} ParseTriageCanReachTheLimit(p: Probes, digits: string)
    requires 0 < p.py.digits < |digits| && IsDigits(digits)
    ensures TriageOf(p, OneSection("nproc", [digits])) == Raises(TOO_MANY_DIGITS)
  {
    DigitsAreOneToken(digits);
    PlainSection("nproc", [digits]);
    OneSectionReads("nproc", [digits]);
    var sections := map["nproc" := [digits]];
    assert SectionText(sections, "nproc") == digits;
    assert IsDigits(Split(SectionText(sections, "nproc"))[0]);
    assert FirstIsLong(p.py, Split(SectionText(sections, "nproc")));
    RaisesIff(p, OneSection("nproc", [digits]));
  }
}
