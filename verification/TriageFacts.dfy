/**
 Which number and which section of a printed triage report becomes which fact (linux_info_mcp/tools/triage.py,
 parse_triage), stated without the parser's own functions.
 */
module TriageFacts {
  import opened Wrappers
  import opened Text
  import opened Numbers
  import opened Sections
  import opened Warnings
  import opened ProcFiles
  import opened Triage

  /** The text of a printed section, "" if there is none of that name. */
  function BodyText(ss: seq<Section>, name: string): string {
    if ss == [] then ""
    else
      var last := ss[|ss| - 1];
      if last.name == name then Strip(Join("\n", last.body)) else BodyText(ss[..|ss| - 1], name)
  }

  lemma {:induction false} BodyTextOf(ss: seq<Section>, name: string)
    requires DistinctNames(ss)
    ensures forall k | 0 <= k < |ss| && ss[k].name == name :: BodyText(ss, name) == Strip(Join("\n", ss[k].body))
    ensures (forall k | 0 <= k < |ss| :: ss[k].name != name) ==> BodyText(ss, name) == ""
  {
    if ss != [] {
      BodyTextOf(ss[..|ss| - 1], name);
    }
  }

  lemma {:induction false} SectionTextIs(ss: seq<Section>, sections: map<string, seq<string>>, name: string)
    requires DistinctNames(ss) && Holds(sections, ss)
    ensures SectionText(sections, name) == BodyText(ss, name)
  {
    BodyTextOf(ss, name);
    if name in sections {
      var k :| 0 <= k < |ss| && ss[k].name == name;
      assert sections[name] == ss[k].body;
    } else {
      MissingSection(sections, name);
    }
  }

  /** The facts that are a probe's own value on the text of its section. */
  lemma {:induction false} ProbesOf(p: Probes, sections: map<string, seq<string>>, text: string -> string,
      mem: map<string, nat>, nproc: Option<nat>, conntrack: Conntrack, taint: Option<nat>)
    requires forall name {:trigger text(name)} :: SectionText(sections, name) == text(name)
    ensures var f := FactsFrom(p, sections, mem, nproc, conntrack, taint);
            && f.load1 == p.load1(text("loadavg")) && f.load5 == p.load5(text("loadavg"))
            && f.load15 == p.load15(text("loadavg"))
            && f.disks == p.disks(text("df")) && f.inodes == p.disks(text("df_inodes"))
            && f.failedUnits == p.failedUnits(text("failed_units")) && f.oomRecent == p.oom(text("oom"))
            && f.zombie == p.zombies(text("ps_states")) && f.dstate == p.dstates(text("ps_states"))
            && f.clockOffset == p.clockOffset(text("clock")) && f.leap == p.leap(text("clock"))
            && f.rebootRequired == p.rebootRequired(text("reboot_required")) && f.topCpu == p.topCpu(text("top_cpu"))
            && f.psi == [Stall("cpu", p.psiSomeAvg10(text("psi_cpu"))),
                         Stall("memory", p.psiSomeAvg10(text("psi_memory"))),
                         Stall("io", p.psiSomeAvg10(text("psi_io")))]
  {}

  /** The parts of a report's facts. */
  lemma {:induction false} FactsParts(p: Probes, sections: map<string, seq<string>>)
    returns (mem: map<string, nat>, nproc: Option<nat>, conntrack: Conntrack, taint: Option<nat>)
    requires FactsOf(p, sections).Ok?
    ensures FactsOf(p, sections).value == FactsFrom(p, sections, mem, nproc, conntrack, taint)
    ensures MemoryOf(p.py, SectionLines(sections, "meminfo")) == Ok(mem)
    ensures FirstInt(p.py, Split(SectionText(sections, "nproc"))) == Ok(nproc)
    ensures ConntrackOf(p.py, SectionLines(sections, "conntrack")) == Ok(conntrack)
    ensures FirstInt(p.py, Split(SectionText(sections, "kernel_taint"))) == Ok(taint)
  {
    mem := MemoryOf(p.py, SectionLines(sections, "meminfo")).value;
    nproc := FirstInt(p.py, Split(SectionText(sections, "nproc"))).value;
    conntrack := ConntrackOf(p.py, SectionLines(sections, "conntrack")).value;
    taint := FirstInt(p.py, Split(SectionText(sections, "kernel_taint"))).value;
  }

  /** Every other fact is its probe's value on the body of the section of its name, joined and stripped. */
  lemma {:induction false} ProbesRead(p: Probes, preamble: seq<string>, ss: seq<Section>, text: string -> string)
    requires NoMarkers(preamble) && forall i | 0 <= i < |preamble| :: NoBreak(preamble[i])
    requires DistinctNames(ss) && forall i | 0 <= i < |ss| :: WellPrinted(ss[i])
    requires TriageOf(p, Printed(preamble, ss)).Ok?
    requires forall name {:trigger text(name)} :: text(name) == BodyText(ss, name)
    ensures var f := TriageOf(p, Printed(preamble, ss)).value.facts;
            && f.load1 == p.load1(text("loadavg")) && f.load5 == p.load5(text("loadavg"))
            && f.load15 == p.load15(text("loadavg"))
            && f.disks == p.disks(text("df")) && f.inodes == p.disks(text("df_inodes"))
            && f.failedUnits == p.failedUnits(text("failed_units")) && f.oomRecent == p.oom(text("oom"))
            && f.zombie == p.zombies(text("ps_states")) && f.dstate == p.dstates(text("ps_states"))
            && f.clockOffset == p.clockOffset(text("clock")) && f.leap == p.leap(text("clock"))
            && f.rebootRequired == p.rebootRequired(text("reboot_required")) && f.topCpu == p.topCpu(text("top_cpu"))
            && f.psi == [Stall("cpu", p.psiSomeAvg10(text("psi_cpu"))),
                         Stall("memory", p.psiSomeAvg10(text("psi_memory"))),
                         Stall("io", p.psiSomeAvg10(text("psi_io")))]
  {
    SectionsRoundTrip(preamble, ss);
    var sections := SectionsOf(SplitLines(Printed(preamble, ss)));
    forall name ensures SectionText(sections, name) == text(name) {
      SectionTextIs(ss, sections, name);
    }
    var mem, nproc, conntrack, taint := FactsParts(p, sections);
    ProbesOf(p, sections, text, mem, nproc, conntrack, taint);
  }

  /** A report that prints these numbers. */
  predicate PrintsNumbers(py: Python, ss: seq<Section>, memory: seq<MemoryLine>, cpus: NumberLine, taint: NumberLine,
                          count: Padded, max: Padded) {
    && (exists k :: 0 <= k < |ss| && ss[k] == Section("meminfo", MemoryTexts(memory)))
    && (exists k :: 0 <= k < |ss| && ss[k] == Section("nproc", [NumberText(cpus)]))
    && (exists k :: 0 <= k < |ss| && ss[k] == Section("kernel_taint", [NumberText(taint)]))
    && (exists k :: 0 <= k < |ss| && ss[k] == Section("conntrack", [PaddedText(count), PaddedText(max)]))
    && |memory| >= 2 && (forall i | 0 <= i < |memory| :: GoodLine(py, memory[i]))
    && GoodNumber(py, cpus) && GoodNumber(py, taint) && GoodPadded(py, count) && GoodPadded(py, max)
  }

  lemma {:induction false} BodyIs(ss: seq<Section>, name: string, body: seq<string>)
    requires DistinctNames(ss) && exists k :: 0 <= k < |ss| && ss[k] == Section(name, body)
    ensures BodyText(ss, name) == Strip(Join("\n", body))
  {
    BodyTextOf(ss, name);
  }

  /**
   The numbers of a printed report are its facts: each memory key has the last number printed under it, and
   CPUs, taint, conntrack count and maximum are those of their sections, in any spacing.
   */
  lemma {:induction false} NumbersRead(p: Probes, preamble: seq<string>, ss: seq<Section>, memory: seq<MemoryLine>,
      cpus: NumberLine, taint: NumberLine, count: Padded, max: Padded)
    requires NoMarkers(preamble) && forall i | 0 <= i < |preamble| :: NoBreak(preamble[i])
    requires DistinctNames(ss) && forall i | 0 <= i < |ss| :: WellPrinted(ss[i])
    requires PrintsNumbers(p.py, ss, memory, cpus, taint, count, max)
    requires TriageOf(p, Printed(preamble, ss)).Ok?
    ensures var f := TriageOf(p, Printed(preamble, ss)).value.facts;
            && f.memTotal == NumberUnder(memory, "MemTotal") && f.memAvailable == NumberUnder(memory, "MemAvailable")
            && f.swapTotal == NumberUnder(memory, "SwapTotal") && f.swapFree == NumberUnder(memory, "SwapFree")
            && f.nproc == Some(cpus.n) && f.kernelTainted == Some(taint.n)
            && f.conntrackCount == Some(count.n) && f.conntrackMax == Some(max.n)
  {
    SectionsRoundTrip(preamble, ss);
    var sections := SectionsOf(SplitLines(Printed(preamble, ss)));
    NumberTexts(p.py, ss, sections, memory, cpus, taint, count, max);
    Unbroken(p.py, ss, memory, cpus, taint, count, max);
    MemoryNumbers(p, sections, memory);
    OtherNumbers(p, sections, cpus, taint, count, max);
  }

  lemma {:induction false} MemoryNumbers(p: Probes, sections: map<string, seq<string>>, memory: seq<MemoryLine>)
    requires FactsOf(p, sections).Ok?
    requires SectionText(sections, "meminfo") == Strip(Join("\n", MemoryTexts(memory)))
    requires |memory| >= 2
    requires forall i | 0 <= i < |memory| :: GoodLine(p.py, memory[i]) && NoBreak(MemoryText(memory[i]))
    ensures var f := FactsOf(p, sections).value;
            && f.memTotal == NumberUnder(memory, "MemTotal") && f.memAvailable == NumberUnder(memory, "MemAvailable")
            && f.swapTotal == NumberUnder(memory, "SwapTotal") && f.swapFree == NumberUnder(memory, "SwapFree")
  {
    var mem, nproc, conntrack, taint := FactsParts(p, sections);
    MemoryEntry(p.py, sections, memory, "MemTotal", mem);
    MemoryEntry(p.py, sections, memory, "MemAvailable", mem);
    MemoryEntry(p.py, sections, memory, "SwapTotal", mem);
    MemoryEntry(p.py, sections, memory, "SwapFree", mem);
  }

  lemma {:induction false} MemoryEntry(py: Python, sections: map<string, seq<string>>, memory: seq<MemoryLine>,
      key: string, mem: map<string, nat>)
    requires SectionText(sections, "meminfo") == Strip(Join("\n", MemoryTexts(memory)))
    requires |memory| >= 2
    requires forall i | 0 <= i < |memory| :: GoodLine(py, memory[i]) && NoBreak(MemoryText(memory[i]))
    requires key == "MemTotal" || key == "MemAvailable" || key == "SwapTotal" || key == "SwapFree"
    requires MemoryOf(py, SectionLines(sections, "meminfo")) == Ok(mem)
    ensures Entry(mem, key) == NumberUnder(memory, key)
  {
    MemorySectionReads(py, memory, key);
  }

  lemma {:induction false} OtherNumbers(p: Probes, sections: map<string, seq<string>>, cpus: NumberLine,
      taint: NumberLine, count: Padded, max: Padded)
    requires FactsOf(p, sections).Ok?
    requires SectionText(sections, "nproc") == Strip(NumberText(cpus)) && GoodNumber(p.py, cpus)
    requires SectionText(sections, "kernel_taint") == Strip(NumberText(taint)) && GoodNumber(p.py, taint)
    requires SectionText(sections, "conntrack") == Strip(Join("\n", [PaddedText(count), PaddedText(max)]))
    requires GoodPadded(p.py, count) && GoodPadded(p.py, max)
    requires NoBreak(PaddedText(count)) && NoBreak(PaddedText(max))
    ensures var f := FactsOf(p, sections).value;
            && f.nproc == Some(cpus.n) && f.kernelTainted == Some(taint.n)
            && f.conntrackCount == Some(count.n) && f.conntrackMax == Some(max.n)
  {
    NumberReads(p.py, cpus);
    NumberReads(p.py, taint);
    ConntrackLines(p.py, count, max);
    var mem, nproc, conntrack, bits := FactsParts(p, sections);
  }

  lemma {:induction false} NumberTexts(py: Python, ss: seq<Section>, sections: map<string, seq<string>>,
      memory: seq<MemoryLine>, cpus: NumberLine, taint: NumberLine, count: Padded, max: Padded)
    requires DistinctNames(ss) && Holds(sections, ss) && forall i | 0 <= i < |ss| :: WellPrinted(ss[i])
    requires PrintsNumbers(py, ss, memory, cpus, taint, count, max)
    ensures SectionText(sections, "meminfo") == Strip(Join("\n", MemoryTexts(memory)))
    ensures SectionText(sections, "nproc") == Strip(NumberText(cpus))
    ensures SectionText(sections, "kernel_taint") == Strip(NumberText(taint))
    ensures SectionText(sections, "conntrack") == Strip(Join("\n", [PaddedText(count), PaddedText(max)]))
  {
    SectionTextIs(ss, sections, "meminfo");
    SectionTextIs(ss, sections, "nproc");
    SectionTextIs(ss, sections, "kernel_taint");
    SectionTextIs(ss, sections, "conntrack");
    BodyIs(ss, "meminfo", MemoryTexts(memory));
    BodyIs(ss, "nproc", [NumberText(cpus)]);
    BodyIs(ss, "kernel_taint", [NumberText(taint)]);
    BodyIs(ss, "conntrack", [PaddedText(count), PaddedText(max)]);
  }

  lemma {:induction false} Unbroken(py: Python, ss: seq<Section>, memory: seq<MemoryLine>, cpus: NumberLine,
      taint: NumberLine, count: Padded, max: Padded)
    requires forall i | 0 <= i < |ss| :: WellPrinted(ss[i])
    requires PrintsNumbers(py, ss, memory, cpus, taint, count, max)
    ensures forall i | 0 <= i < |memory| :: NoBreak(MemoryText(memory[i]))
    ensures NoBreak(PaddedText(count)) && NoBreak(PaddedText(max))
  {
    UnbrokenBody(ss, "meminfo", MemoryTexts(memory));
    UnbrokenBody(ss, "conntrack", [PaddedText(count), PaddedText(max)]);
    forall i | 0 <= i < |memory| ensures NoBreak(MemoryText(memory[i])) {
      assert MemoryTexts(memory)[i] == MemoryText(memory[i]);
    }
    assert [PaddedText(count), PaddedText(max)][0] == PaddedText(count);
    assert [PaddedText(count), PaddedText(max)][1] == PaddedText(max);
  }

  lemma {:induction false} UnbrokenBody(ss: seq<Section>, name: string, body: seq<string>)
    requires forall i | 0 <= i < |ss| :: WellPrinted(ss[i])
    requires exists k :: 0 <= k < |ss| && ss[k] == Section(name, body)
    ensures forall i | 0 <= i < |body| :: NoBreak(body[i])
  {}
}
