/** The section splitter of the triage report (linux_info_mcp/tools/triage.py, _split_sections). */
module Sections {
  import opened Wrappers
  import opened Text

  const BAR := "==="

  predicate IsMarker(line: string) { BAR <= line && |line| > 6 && line[|line| - 3..] == BAR }

  function MarkerName(line: string): string
    requires IsMarker(line)
  {
    line[3..|line| - 3]
  }

  // ----- what a text says, line by line

  /** The section in force after some lines. */
  function Current(lines: seq<string>): Option<string> {
    if lines == [] then None
    else
      var last := lines[|lines| - 1];
      if IsMarker(last) then Some(MarkerName(last)) else Current(lines[..|lines| - 1])
  }

  datatype Tagged = Tagged(section: string, line: string)

  /** One more line: it joins the section in force, unless it is a marker or no section is open. */
  function TagLine(ts: seq<Tagged>, current: Option<string>, line: string): seq<Tagged> {
    if IsMarker(line) || current.None? then ts else ts + [Tagged(current.value, line)]
  }

  /** Every line that is in a section, with the name of that section, in the order of the text. */
  function TaggedLines(lines: seq<string>): seq<Tagged> {
    if lines == [] then []
    else
      var front := lines[..|lines| - 1];
      TagLine(TaggedLines(front), Current(front), lines[|lines| - 1])
  }

  function Names(lines: seq<string>): set<string> {
    if lines == [] then {}
    else
      var last := lines[|lines| - 1];
      Names(lines[..|lines| - 1]) + if IsMarker(last) then {MarkerName(last)} else {}
  }

  /** The lines tagged with a name. */
  function BodyOf(ts: seq<Tagged>, name: string): seq<string> {
    if ts == [] then []
    else
      var front, last := BodyOf(ts[..|ts| - 1], name), ts[|ts| - 1];
      if last.section == name then front + [last.line] else front
  }

  function Collected(names: set<string>, ts: seq<Tagged>): map<string, seq<string>> {
    map name | name in names :: BodyOf(ts, name)
  }

  /** The dictionary of a text: under each name, all of its lines. */
  function SectionsOf(lines: seq<string>): map<string, seq<string>> { Collected(Names(lines), TaggedLines(lines)) }

  // ----- the loop

  lemma {:induction false} LinesNext(lines: seq<string>, line: string)
    ensures Current(lines + [line]) == if IsMarker(line) then Some(MarkerName(line)) else Current(lines)
    ensures TaggedLines(lines + [line]) == TagLine(TaggedLines(lines), Current(lines), line)
    ensures Names(lines + [line]) == Names(lines) + if IsMarker(line) then {MarkerName(line)} else {}
  {
    assert (lines + [line])[..|lines|] == lines;
  }

  lemma {:induction false} BodyNext(ts: seq<Tagged>, t: Tagged, name: string)
    ensures BodyOf(ts + [t], name) == if t.section == name then BodyOf(ts, name) + [t.line] else BodyOf(ts, name)
  {
    assert (ts + [t])[..|ts|] == ts;
  }

  /** Sections in use have a name, and only those; other names have no lines. */
  lemma {:induction false} NamesCover(lines: seq<string>)
    ensures Current(lines).Some? ==> Current(lines).value in Names(lines)
    ensures forall i | 0 <= i < |TaggedLines(lines)| :: TaggedLines(lines)[i].section in Names(lines)
  {
    if lines != [] {
      NamesCover(lines[..|lines| - 1]);
    }
  }

  lemma {:induction false} BodyOfAbsent(ts: seq<Tagged>, name: string)
    requires forall i | 0 <= i < |ts| :: ts[i].section != name
    ensures BodyOf(ts, name) == []
  {
    if ts != [] {
      BodyOfAbsent(ts[..|ts| - 1], name);
    }
  }

  /** One line of the loop: a marker opens or reopens a section, any other line joins the open one. */
  lemma {:induction false} MarkerStep(lines: seq<string>, line: string)
    requires IsMarker(line)
    ensures var d := SectionsOf(lines);
            var name := MarkerName(line);
            SectionsOf(lines + [line]) == if name in d then d else d[name := []]
  {
    LinesNext(lines, line);
    NamesCover(lines);
    assert TaggedLines(lines + [line]) == TaggedLines(lines);
    if MarkerName(line) !in Names(lines) {
      BodyOfAbsent(TaggedLines(lines), MarkerName(line));
    }
  }

  lemma {:induction false} CollectedNext(names: set<string>, ts: seq<Tagged>, name: string, line: string)
    requires name in names
    ensures Collected(names, ts + [Tagged(name, line)])
         == Collected(names, ts)[name := Collected(names, ts)[name] + [line]]
  {
    forall n | n in names
      ensures BodyOf(ts + [Tagged(name, line)], n) == if n == name then BodyOf(ts, n) + [line] else BodyOf(ts, n)
    {
      BodyNext(ts, Tagged(name, line), n);
    }
  }

  lemma {:induction false} LineStep(lines: seq<string>, line: string, name: string)
    requires !IsMarker(line) && Current(lines) == Some(name)
    ensures name in SectionsOf(lines)
    ensures SectionsOf(lines + [line]) == SectionsOf(lines)[name := SectionsOf(lines)[name] + [line]]
  {
    LinesNext(lines, line);
    NamesCover(lines);
    CollectedNext(Names(lines), TaggedLines(lines), name, line);
  }

  lemma {:induction false} PreambleStep(lines: seq<string>, line: string)
    requires !IsMarker(line) && Current(lines) == None
    ensures SectionsOf(lines + [line]) == SectionsOf(lines)
  {
    LinesNext(lines, line);
    assert TaggedLines(lines + [line]) == TaggedLines(lines);
  }

  method SplitSections(text: string) returns (sections: map<string, seq<string>>)
    ensures sections == SectionsOf(SplitLines(text))
  {
    sections := map[];
    var current: Option<string> := None;
    var lines := SplitLines(text);
    for i := 0 to |lines|
      invariant current == Current(lines[..i])
      invariant sections == SectionsOf(lines[..i])
    {
      var line := lines[i];
      assert lines[..i + 1] == lines[..i] + [line];
      LinesNext(lines[..i], line);
      if IsMarker(line) {
        MarkerStep(lines[..i], line);
        current := Some(MarkerName(line));
        if current.value !in sections {
          sections := sections[current.value := []];
        }
      } else if current.Some? {
        LineStep(lines[..i], line, current.value);
        sections := sections[current.value := sections[current.value] + [line]];
      } else {
        PreambleStep(lines[..i], line);
      }
    }
    assert lines[..|lines|] == lines;
  }

  // ----- conservation

  function Untagged(ts: seq<Tagged>): seq<string> {
    if ts == [] then [] else Untagged(ts[..|ts| - 1]) + [ts[|ts| - 1].line]
  }

  function NonMarkers(lines: seq<string>): seq<string> {
    if lines == [] then []
    else
      var front, last := NonMarkers(lines[..|lines| - 1]), lines[|lines| - 1];
      if IsMarker(last) then front else front + [last]
  }

  predicate NoMarkers(lines: seq<string>) { forall i | 0 <= i < |lines| :: !IsMarker(lines[i]) }

  lemma {:induction false} PreambleSaysNothing(lines: seq<string>)
    requires NoMarkers(lines)
    ensures Current(lines) == None && TaggedLines(lines) == [] && Names(lines) == {}
  {
    if lines != [] {
      PreambleSaysNothing(lines[..|lines| - 1]);
    }
  }

  lemma {:induction false} AppendLine(a: seq<string>, b: seq<string>)
    requires b != []
    ensures a + b == (a + b[..|b| - 1]) + [b[|b| - 1]]
  {}

  /** From the first marker on every line but the markers is in a section, none twice, in order. */
  lemma {:induction false} LinesAreConserved(preamble: seq<string>, rest: seq<string>)
    requires NoMarkers(preamble) && (rest != [] ==> IsMarker(rest[0]))
    ensures Untagged(TaggedLines(preamble + rest)) == NonMarkers(rest)
    ensures rest != [] ==> Current(preamble + rest).Some?
    decreases |rest|
  {
    if rest == [] {
      assert preamble + rest == preamble;
      PreambleSaysNothing(preamble);
    } else {
      var front, last := rest[..|rest| - 1], rest[|rest| - 1];
      LinesAreConserved(preamble, front);
      AppendLine(preamble, rest);
      LinesNext(preamble + front, last);
      var ts := TaggedLines(preamble + front);
      if IsMarker(last) {
        assert TaggedLines(preamble + rest) == ts;
        assert NonMarkers(rest) == NonMarkers(front);
      } else {
        var t := Tagged(Current(preamble + front).value, last);
        assert (ts + [t])[..|ts|] == ts;
      }
    }
  }

  /** A section holds a line as often as the text has it there: sections share nothing and drop nothing. */
  lemma {:induction false} BodiesPartition(ts: seq<Tagged>, name: string, line: string)
    ensures multiset(BodyOf(ts, name))[line] == multiset(ts)[Tagged(name, line)]
  {
    if ts != [] {
      var front, last := ts[..|ts| - 1], ts[|ts| - 1];
      BodiesPartition(front, name, line);
      assert ts == front + [last];
    }
  }

  // ----- printed sections

  datatype Section = Section(name: string, body: seq<string>)

  function Marker(name: string): string { BAR + name + BAR }

  predicate WellPrinted(s: Section) {
    && s.name != "" && NoBreak(s.name) && NoMarkers(s.body)
    && (forall i | 0 <= i < |s.body| :: NoBreak(s.body[i]))
  }

  function Render(ss: seq<Section>): seq<string> {
    if ss == [] then [] else Render(ss[..|ss| - 1]) + ([Marker(ss[|ss| - 1].name)] + ss[|ss| - 1].body)
  }

  /** All the lines printed under a name. */
  function Bodies(ss: seq<Section>, name: string): seq<string> {
    if ss == [] then []
    else
      var front, last := Bodies(ss[..|ss| - 1], name), ss[|ss| - 1];
      if last.name == name then front + last.body else front
  }

  function SectionNames(ss: seq<Section>): set<string> { set i | 0 <= i < |ss| :: ss[i].name }

  lemma {:induction false} MarkerIsMarker(name: string)
    requires name != ""
    ensures IsMarker(Marker(name)) && MarkerName(Marker(name)) == name
  {
    var m := Marker(name);
    assert m[..3] == BAR && m[|m| - 3..] == BAR;
  }

  /** The lines of a section named `name` as seen under a name `n`. */
  function Extend(body: seq<string>, n: string, name: string, more: seq<string>): seq<string> {
    if n == name then body + more else body
  }

  lemma {:induction false} BodyLineJoins(lines: seq<string>, name: string, line: string, n: string)
    requires Current(lines) == Some(name) && !IsMarker(line)
    ensures Current(lines + [line]) == Some(name) && Names(lines + [line]) == Names(lines)
    ensures BodyOf(TaggedLines(lines + [line]), n) == Extend(BodyOf(TaggedLines(lines), n), n, name, [line])
  {
    LinesNext(lines, line);
    BodyNext(TaggedLines(lines), Tagged(name, line), n);
  }

  lemma {:induction false} BodyLinesJoin(lines: seq<string>, name: string, body: seq<string>, n: string)
    requires Current(lines) == Some(name) && NoMarkers(body)
    ensures Current(lines + body) == Some(name) && Names(lines + body) == Names(lines)
    ensures BodyOf(TaggedLines(lines + body), n) == Extend(BodyOf(TaggedLines(lines), n), n, name, body)
    decreases |body|
  {
    if body == [] {
      assert lines + body == lines;
    } else {
      var more, rest := lines + [body[0]], body[1..];
      BodyLineJoins(lines, name, body[0], n);
      BodyLinesJoin(more, name, rest, n);
      assert lines + body == more + rest;
      ExtendTwice(BodyOf(TaggedLines(lines), n), n, name, [body[0]], rest);
      assert [body[0]] + rest == body;
    }
  }

  lemma {:induction false} ExtendTwice(body: seq<string>, n: string, name: string, a: seq<string>, b: seq<string>)
    ensures Extend(Extend(body, n, name, a), n, name, b) == Extend(body, n, name, a + b)
  {
    assert body + a + b == body + (a + b);
  }

  lemma {:induction false} MarkerJoins(lines: seq<string>, name: string)
    requires name != ""
    ensures var more := lines + [Marker(name)];
            && Current(more) == Some(name)
            && Names(more) == Names(lines) + {name}
            && TaggedLines(more) == TaggedLines(lines)
  {
    MarkerIsMarker(name);
    LinesNext(lines, Marker(name));
  }

  lemma {:induction false} SectionJoins(lines: seq<string>, s: Section, n: string)
    requires WellPrinted(s)
    ensures var more := lines + [Marker(s.name)] + s.body;
            && Names(more) == Names(lines) + {s.name}
            && BodyOf(TaggedLines(more), n) == Extend(BodyOf(TaggedLines(lines), n), n, s.name, s.body)
  {
    var marked := lines + [Marker(s.name)];
    MarkerJoins(lines, s.name);
    BodyLinesJoin(marked, s.name, s.body, n);
  }

  lemma {:induction false} RenderNext(preamble: seq<string>, ss: seq<Section>)
    requires ss != []
    ensures var front, last := ss[..|ss| - 1], ss[|ss| - 1];
            preamble + Render(ss) == preamble + Render(front) + [Marker(last.name)] + last.body
  {}

  lemma {:induction false} NamesNext(ss: seq<Section>)
    requires ss != []
    ensures SectionNames(ss) == SectionNames(ss[..|ss| - 1]) + {ss[|ss| - 1].name}
  {
    assert ss == ss[..|ss| - 1] + [ss[|ss| - 1]];
  }

  lemma {:induction false} RenderNames(preamble: seq<string>, ss: seq<Section>)
    requires NoMarkers(preamble) && forall i | 0 <= i < |ss| :: WellPrinted(ss[i])
    ensures Names(preamble + Render(ss)) == SectionNames(ss)
    decreases |ss|
  {
    if ss == [] {
      assert preamble + Render(ss) == preamble;
      PreambleSaysNothing(preamble);
    } else {
      RenderNames(preamble, ss[..|ss| - 1]);
      SectionJoins(preamble + Render(ss[..|ss| - 1]), ss[|ss| - 1], "");
      RenderNext(preamble, ss);
      NamesNext(ss);
    }
  }

  /** Printed sections are read back; sections of one name are joined, in the order of the text. */
  lemma {:induction false} RenderReads(preamble: seq<string>, ss: seq<Section>, n: string)
    requires NoMarkers(preamble) && forall i | 0 <= i < |ss| :: WellPrinted(ss[i])
    ensures BodyOf(TaggedLines(preamble + Render(ss)), n) == Bodies(ss, n)
    decreases |ss|
  {
    if ss == [] {
      assert preamble + Render(ss) == preamble;
      PreambleSaysNothing(preamble);
    } else {
      RenderReads(preamble, ss[..|ss| - 1], n);
      SectionJoins(preamble + Render(ss[..|ss| - 1]), ss[|ss| - 1], n);
      RenderNext(preamble, ss);
    }
  }

  predicate DistinctNames(ss: seq<Section>) { forall i, j | 0 <= i < j < |ss| :: ss[i].name != ss[j].name }

  lemma {:induction false} BodiesOfOther(ss: seq<Section>, name: string)
    requires forall i | 0 <= i < |ss| :: ss[i].name != name
    ensures Bodies(ss, name) == []
  {
    if ss != [] {
      BodiesOfOther(ss[..|ss| - 1], name);
    }
  }

  lemma {:induction false} BodiesOfDistinct(ss: seq<Section>, i: nat)
    requires DistinctNames(ss) && i < |ss|
    ensures Bodies(ss, ss[i].name) == ss[i].body
  {
    var front := ss[..|ss| - 1];
    if i == |ss| - 1 {
      BodiesOfOther(front, ss[i].name);
    } else {
      BodiesOfDistinct(front, i);
    }
  }

  /** The text of a printed report. */
  function Printed(preamble: seq<string>, ss: seq<Section>): string { Unlines(preamble + Render(ss)) }

  lemma {:induction false} RenderNoBreak(ss: seq<Section>)
    requires forall i | 0 <= i < |ss| :: WellPrinted(ss[i])
    ensures forall i | 0 <= i < |Render(ss)| :: NoBreak(Render(ss)[i])
  {
    if ss != [] {
      RenderNoBreak(ss[..|ss| - 1]);
    }
  }

  /** A dictionary that holds exactly these sections. */
  predicate Holds(d: map<string, seq<string>>, ss: seq<Section>) {
    d.Keys == SectionNames(ss) && forall i | 0 <= i < |ss| :: ss[i].name in d && d[ss[i].name] == ss[i].body
  }

  /** The round trip: sections of distinct names come back, each with its own lines, and nothing else does. */
  lemma {:induction false} SectionsRoundTrip(preamble: seq<string>, ss: seq<Section>)
    requires NoMarkers(preamble) && forall i | 0 <= i < |preamble| :: NoBreak(preamble[i])
    requires DistinctNames(ss) && forall i | 0 <= i < |ss| :: WellPrinted(ss[i])
    ensures Holds(SectionsOf(SplitLines(Printed(preamble, ss))), ss)
  {
    RenderNoBreak(ss);
    SplitUnlines(preamble + Render(ss));
    RenderNames(preamble, ss);
    forall i | 0 <= i < |ss|
      ensures BodyOf(TaggedLines(preamble + Render(ss)), ss[i].name) == ss[i].body
    {
      RenderReads(preamble, ss, ss[i].name);
      BodiesOfDistinct(ss, i);
    }
  }

  lemma {:induction false} HoldsDetermines(d: map<string, seq<string>>, ss: seq<Section>, e: map<string,
      seq<string>>, ts: seq<Section>)
    requires Holds(d, ss) && Holds(e, ts) && forall s :: s in ss <==> s in ts
    ensures d == e
  {
    forall n | n in d.Keys ensures n in e && d[n] == e[n] {
      var i :| 0 <= i < |ss| && ss[i].name == n;
      assert ss[i] in ts;
    }
    forall n | n in e.Keys ensures n in d {
      var i :| 0 <= i < |ts| && ts[i].name == n;
      assert ts[i] in ss;
    }
  }

  /** Printing the same sections in another order, with another preamble, gives the same dictionary. */
  lemma {:induction false} OrderIsIrrelevant(before: seq<string>, ss: seq<Section>, ahead: seq<string>,
      ts: seq<Section>)
    requires NoMarkers(before) && forall i | 0 <= i < |before| :: NoBreak(before[i])
    requires NoMarkers(ahead) && forall i | 0 <= i < |ahead| :: NoBreak(ahead[i])
    requires DistinctNames(ss) && forall i | 0 <= i < |ss| :: WellPrinted(ss[i])
    requires multiset(ss) == multiset(ts)
    ensures SectionsOf(SplitLines(Printed(before, ss))) == SectionsOf(SplitLines(Printed(ahead, ts)))
  {
    SameMembers(ss, ts);
    DistinctPermutes(ss, ts);
    forall i | 0 <= i < |ts| ensures WellPrinted(ts[i]) {
      assert ts[i] in ss;
    }
    SectionsRoundTrip(before, ss);
    SectionsRoundTrip(ahead, ts);
    HoldsDetermines(SectionsOf(SplitLines(Printed(before, ss))), ss, SectionsOf(SplitLines(Printed(ahead, ts))), ts);
  }

  lemma {:induction false} SameMembers(ss: seq<Section>, ts: seq<Section>)
    requires multiset(ss) == multiset(ts)
    ensures forall s :: s in ss <==> s in ts
  {
    forall s ensures s in ss <==> s in ts {
      assert s in ss <==> s in multiset(ss);
      assert s in ts <==> s in multiset(ts);
    }
  }

  /** A permutation of distinct names has distinct names. */
  lemma {:induction false} DistinctPermutes(ss: seq<Section>, ts: seq<Section>)
    requires multiset(ss) == multiset(ts) && DistinctNames(ss)
    ensures DistinctNames(ts)
  {
    SameMembers(ss, ts);
    forall i, j | 0 <= i < j < |ts| ensures ts[i].name != ts[j].name {
      if ts[i].name == ts[j].name {
        assert ts[i] in ss && ts[j] in ss;
        assert ts[i] == ts[j];
        TwiceInMultiset(ts, i, j);
        var k :| 0 <= k < |ss| && ss[k] == ts[i];
        OnceInMultiset(ss, k);
      }
    }
  }

  lemma {:induction false} TwiceInMultiset(ts: seq<Section>, i: nat, j: nat)
    requires i < j < |ts| && ts[i] == ts[j]
    ensures multiset(ts)[ts[i]] >= 2
  {
    assert ts == ts[..i] + [ts[i]] + ts[i + 1..j] + [ts[j]] + ts[j + 1..];
  }

  lemma {:induction false} OnceInMultiset(ss: seq<Section>, k: nat)
    requires k < |ss| && DistinctNames(ss)
    ensures multiset(ss)[ss[k]] == 1
  {
    assert ss == ss[..k] + [ss[k]] + ss[k + 1..];
    assert ss[k] !in ss[..k] && ss[k] !in ss[k + 1..];
  }

  /** A marker is a line of a name between three equality signs on either side. */
  lemma {:induction false} MarkerIff(line: string, name: string)
    ensures IsMarker(line) <==> |line| > 6 && "===" <= line && line[|line| - 3..] == "==="
    ensures name != "" ==> IsMarker("===" + name + "===") && MarkerName("===" + name + "===") == name
    ensures Marker(name) == "===" + name + "==="
  {}
}
