/**
 What the command builders share: joining printed words and growing lists of parts; and the builder
 for reading files (linux_info_mcp/ssh.py) with what the remote shell makes of it.
 */
module Builders {
  import opened Wrappers
  import opened Text
  import opened Shell
  import opened Printing
  import opened Plans

  datatype Codec = Gzip | Zstd | Xz | Bzip2 | Lz4

  /** The decompressor of a codec; it is followed by `-dc`. */
  function Decompressor(codec: Codec): string {
    match codec
    case Gzip => "gzip"
    case Zstd => "zstd"
    case Xz => "xz"
    case Bzip2 => "bzip2"
    case Lz4 => "lz4"
  }

  /** The table entry: the decompressor and its flag. */
  function CodecCommand(codec: Codec): string { Decompressor(codec) + " -dc" }

  // ----- joining printed words

  function Words(texts: seq<string>): (r: seq<Item>)
    ensures |r| == |texts|
  {
    seq(|texts|, i requires 0 <= i < |texts| => Text(texts[i]))
  }

  /** Quoted values without a prefix. */
  function Values(values: seq<string>): (r: seq<Item>)
    ensures |r| == |values|
  {
    seq(|values|, i requires 0 <= i < |values| => Value("", values[i]))
  }

  function Quotes(values: seq<string>): (r: seq<string>)
    ensures |r| == |values|
  {
    seq(|values|, i requires 0 <= i < |values| => Quote(values[i]))
  }

  lemma {:induction false} ShowAppend(a: seq<Item>, b: seq<Item>)
    requires a != [] && b != []
    ensures Show(a + b) == Show(a) + " " + Show(b)
  {
    assert ShowItems(a + b) == ShowItems(a) + ShowItems(b);
    JoinAppend(" ", ShowItems(a), ShowItems(b));
  }

  lemma {:induction false} ShowWord(item: Item)
    ensures Show([item]) == ShowItem(item)
  {
    assert ShowItems([item]) == [ShowItem(item)];
  }

  lemma {:induction false} ShowQuotes(values: seq<string>)
    ensures ShowItems(Values(values)) == Quotes(values)
  {
    forall i | 0 <= i < |values| ensures ShowItem(Values(values)[i]) == Quote(values[i]) {
      assert "" + Quote(values[i]) == Quote(values[i]);
    }
  }

  // ----- reading files: ssh.py

  /** The command that writes the file's text: cat, or a decompressor. */
  function ReadArgs(path: string, codec: Option<Codec>): seq<Item> {
    (match codec
     case None => [Text("cat")]
     case Some(c) => [Text(Decompressor(c)), Text("-dc")])
    + [Text("--"), Value("", path)]
  }

  function ReadSource(path: string, codec: Option<Codec>): string {
    match codec
    case None => "LC_ALL=C " + "cat" + " -- " + Quote(path)
    case Some(c) => "LC_ALL=C " + CodecCommand(c) + " -- " + Quote(path)
  }

  function FlagsPart(flags: seq<string>): string {
    var joined := Join(" ", Quotes(flags));
    if joined != "" then joined + " " else ""
  }

  /** What the read builders append to a source for a pattern. */
  function GrepTail(flags: seq<string>, p: string): string {
    " | grep " + FlagsPart(flags) + "-e " + Quote(p) + " -- || [ $? -eq 1 ]"
  }

  function BuildRead(path: string, pattern: Option<string>, flags: seq<string>, codec: Option<Codec>): string {
    var src := ReadSource(path, codec);
    match pattern
    case None => src
    case Some(p) => src + GrepTail(flags, p)
  }

  function GrepArgs(flags: seq<string>, pattern: string): seq<Item> {
    [Text("grep")] + Values(flags) + [Text("-e"), Value("", pattern), Text("--")]
  }

  /** Text read from `source`, filtered by grep when there is a pattern. */
  function FilterPlan(source: seq<Item>, pattern: Option<string>, flags: seq<string>): Plan {
    match pattern
    case None => Plan([Stage(true, source, false)], false)
    case Some(p) => Plan([Stage(true, source, false), Stage(false, GrepArgs(flags, p), false)], true)
  }

  lemma {:induction false} DecompressText(name: string, path: string)
    ensures "LC_ALL=C " + (name + " -dc") + " -- " + Quote(path)
         == Show([Text("LC_ALL=C"), Text(name), Text("-dc"), Text("--"), Value("", path)])
  {
    var items := [Text("LC_ALL=C"), Text(name), Text("-dc"), Text("--"), Value("", path)];
    assert "" + Quote(path) == Quote(path);
    assert ShowItems(items) == ["LC_ALL=C", name, "-dc", "--", Quote(path)];
    Join5("LC_ALL=C", name, "-dc", "--", Quote(path));
    Spacing();
    RegroupReader("LC_ALL=C", name, "-dc", "--", Quote(path));
  }

  lemma {:induction false} RegroupReader(a: string, b: string, c: string, d: string, e: string)
    ensures (a + " ") + (b + (" " + c)) + (" " + d + " ") + e == a + " " + b + " " + c + " " + d + " " + e
  {}

  lemma {:induction false} CatText(path: string)
    ensures "LC_ALL=C " + "cat" + " -- " + Quote(path)
         == Show([Text("LC_ALL=C"), Text("cat"), Text("--"), Value("", path)])
  {
    var items := [Text("LC_ALL=C"), Text("cat"), Text("--"), Value("", path)];
    assert "" + Quote(path) == Quote(path);
    assert ShowItems(items) == ["LC_ALL=C", "cat", "--", Quote(path)];
    Join4("LC_ALL=C", "cat", "--", Quote(path));
    Spacing();
    assert ("LC_ALL=C" + " ") + "cat" + (" " + "--" + " ") + Quote(path)
        == "LC_ALL=C" + " " + "cat" + " " + "--" + " " + Quote(path) by {
      RegroupCat("LC_ALL=C", "cat", "--", Quote(path));
    }
  }

  lemma {:induction false} RegroupCat(a: string, b: string, c: string, d: string)
    ensures (a + " ") + b + (" " + c + " ") + d == a + " " + b + " " + c + " " + d
  {}

  lemma {:induction false} ReadSourceText(path: string, codec: Option<Codec>)
    ensures ReadSource(path, codec) == Show([Text("LC_ALL=C")] + ReadArgs(path, codec))
  {
    match codec {
      case None =>
        CatText(path);
        assert [Text("LC_ALL=C")] + ReadArgs(path, codec)
            == [Text("LC_ALL=C"), Text("cat"), Text("--"), Value("", path)];
      case Some(c) =>
        DecompressText(Decompressor(c), path);
        assert [Text("LC_ALL=C")] + ReadArgs(path, codec)
            == [Text("LC_ALL=C"), Text(Decompressor(c)), Text("-dc"), Text("--"), Value("", path)];
    }
  }

  lemma {:induction false} Spacing()
    ensures "LC_ALL=C" + " " == "LC_ALL=C " && " " + "-dc" == " -dc"
    ensures " " + "--" + " " == " -- "
  {}

  lemma {:induction false} Join3(a: string, b: string, c: string)
    ensures Join(" ", [a, b, c]) == a + " " + b + " " + c
  {
    assert [a, b, c][1..] == [b, c] && [b, c][1..] == [c];
    assert Join(" ", [b, c]) == b + " " + c;
    assert a + " " + (b + " " + c) == a + " " + b + " " + c;
  }

  lemma {:induction false} Join4(a: string, b: string, c: string, d: string)
    ensures Join(" ", [a, b, c, d]) == a + " " + b + " " + c + " " + d
  {
    JoinAppend(" ", [a, b], [c, d]);
    assert [a, b] + [c, d] == [a, b, c, d];
    assert [a, b][1..] == [b] && [c, d][1..] == [d];
  }

  lemma {:induction false} Join5(a: string, b: string, c: string, d: string, e: string)
    ensures Join(" ", [a, b, c, d, e]) == a + " " + b + " " + c + " " + d + " " + e
  {
    JoinAppend(" ", [a, b, c, d], [e]);
    assert [a, b, c, d] + [e] == [a, b, c, d, e];
    Join4(a, b, c, d);
  }

  lemma {:induction false} QuotesJoin(values: seq<string>)
    ensures Join(" ", Quotes(values)) == "" <==> values == []
  {
    if values != [] { assert Quotes(values)[0] == Quote(values[0]); }
  }

  lemma {:induction false} ShowMask()
    ensures Show(MASK) == "|| [ $? -eq 1 ]"
  {
    assert ShowItems(MASK) == ["||", "["] + ["$?", "-eq", "1", "]"];
    JoinAppend(" ", ["||", "["], ["$?", "-eq", "1", "]"]);
    Join4("$?", "-eq", "1", "]");
    assert ["||", "["][1..] == ["["];
    assert Join(" ", ["||", "["]) == "|| [";
  }

  lemma {:induction false} ShowGrep(flags: seq<string>, p: string)
    ensures Show(GrepArgs(flags, p)) == "grep " + FlagsPart(flags) + "-e " + Quote(p) + " --"
  {
    var head, tail := [Text("grep")], [Text("-e"), Value("", p), Text("--")];
    ShowWord(Text("grep"));
    QuotesJoin(flags);
    assert "" + Quote(p) == Quote(p);
    assert ShowItems(tail) == ["-e", Quote(p), "--"];
    Join3("-e", Quote(p), "--");
    if flags == [] {
      assert GrepArgs(flags, p) == head + tail;
      ShowAppend(head, tail);
    } else {
      ShowQuotes(flags);
      ShowAppend(head, Values(flags));
      ShowAppend(head + Values(flags), tail);
    }
    GrepText(Join(" ", Quotes(flags)), Quote(p));
  }

  lemma {:induction false} GrepText(flags: string, p: string)
    ensures "grep" + " " + flags + " " + ("-e" + " " + p + " " + "--") == "grep " + (flags + " ") + "-e " + p + " --"
    ensures "grep" + " " + ("-e" + " " + p + " " + "--") == "grep " + "" + "-e " + p + " --"
  {
    assert "grep" + " " == "grep " && "-e" + " " == "-e " && " " + "--" == " --";
    assert "grep" + " " + flags + " " + ("-e" + " " + p + " " + "--")
        == ("grep" + " ") + (flags + " ") + ("-e" + " ") + p + (" " + "--");
  }

  /** A source followed by the grep tail is the printed form of the filter plan. */
  lemma {:induction false} FilterText(source: seq<Item>, pattern: Option<string>, flags: seq<string>)
    ensures Line(FilterPlan(source, pattern, flags))
         == Show([Text("LC_ALL=C")] + source) + (if pattern.Some? then GrepTail(flags, pattern.value) else "")
  {
    var plan := FilterPlan(source, pattern, flags);
    var first := [Text("LC_ALL=C")] + source;
    assert StageItems(plan.stages[0]) == first;
    match pattern {
      case None =>
        assert PlanItems(plan) == first;
      case Some(p) =>
        var grep := GrepArgs(flags, p);
        assert plan.stages[1..] == [Stage(false, grep, false)];
        assert StageItems(plan.stages[1]) == grep && PipeItems(plan.stages[1..]) == grep;
        assert PlanItems(plan) == (first + [Symbol("|")] + grep) + MASK;
        ShowAppend(first, [Symbol("|")]);
        ShowWord(Symbol("|"));
        ShowAppend(first + [Symbol("|")], grep);
        ShowAppend(first + [Symbol("|")] + grep, MASK);
        ShowMask();
        ShowGrep(flags, p);
        GrepTailText(Show(first), FlagsPart(flags), Quote(p));
    }
  }

  lemma {:induction false} GrepTailText(src: string, flags: string, p: string)
    ensures src + " " + "|" + " " + ("grep " + flags + "-e " + p + " --") + " " + "|| [ $? -eq 1 ]"
         == src + (" | grep " + flags + "-e " + p + " -- || [ $? -eq 1 ]")
  {
    assert " " + "|" + " " + "grep " == " | grep ";
    assert " --" + " " + "|| [ $? -eq 1 ]" == " -- || [ $? -eq 1 ]";
    assert src + " " + "|" + " " + ("grep " + flags + "-e " + p + " --") + " " + "|| [ $? -eq 1 ]"
        == src + (" " + "|" + " " + "grep ") + flags + "-e " + p + (" --" + " " + "|| [ $? -eq 1 ]");
  }

  lemma {:induction false} ReadText(path: string, pattern: Option<string>, flags: seq<string>, codec: Option<Codec>)
    ensures BuildRead(path, pattern, flags, codec) == Line(FilterPlan(ReadArgs(path, codec), pattern, flags))
  {
    ReadSourceText(path, codec);
    FilterText(ReadArgs(path, codec), pattern, flags);
  }

  // ----- what a filtered source means

  lemma {:induction false} ArgvAppend(a: seq<Item>, b: seq<Item>)
    requires AreArgs(a) && AreArgs(b)
    ensures AreArgs(a + b) && Argv(a + b) == Argv(a) + Argv(b)
  {}

  lemma {:induction false} ArgvValues(values: seq<string>)
    ensures AreArgs(Values(values)) && Argv(Values(values)) == values
  {
    forall i | 0 <= i < |values| ensures ArgText(Values(values)[i]) == values[i] {
      assert "" + values[i] == values[i];
    }
  }

  lemma {:induction false} GrepArgsGood(flags: seq<string>, p: string)
    ensures GoodStage(Stage(false, GrepArgs(flags, p), false))
    ensures Argv(GrepArgs(flags, p)) == ["grep"] + flags + ["-e", p, "--"]
  {
    var head, tail := [Text("grep")], [Text("-e"), Value("", p), Text("--")];
    ArgvValues(flags);
    assert "" + p == p;
    assert AreArgs(head) && Argv(head) == ["grep"];
    assert AreArgs(tail) && Argv(tail) == ["-e", p, "--"];
    ArgvAppend(head, Values(flags));
    ArgvAppend(head + Values(flags), tail);
    assert GrepArgs(flags, p)[0] == Text("grep");
  }

  /** grep's status with "no line matched" counted as success and every failure as 1. */
  function MaskedStatus(status: nat): nat { if status <= 1 then 0 else 1 }

  /**
   A filtered source runs the source under LC_ALL=C, gives its output to grep, and yields exactly
   what grep writes; the status is 0 if grep's is 0 or 1, otherwise 1.
   */
  lemma {:induction false} FilterMeaning(world: World, source: seq<Item>, p: string, flags: seq<string>)
    requires GoodStage(Stage(true, source, false))
    ensures var from := world(Invocation([Binding("LC_ALL", "C")], Argv(source), ""));
            var grep := world(Invocation([], ["grep"] + flags + ["-e", p, "--"], from.out));
            Run(world, Line(FilterPlan(source, Some(p), flags))) == Some(Effect(grep.out, MaskedStatus(grep.status)))
  {
    var plan := FilterPlan(source, Some(p), flags);
    GrepArgsGood(flags, p);
    assert plan.stages[1..] == [Stage(false, GrepArgs(flags, p), false)];
    assert GoodPlan(plan);
    RunLine(world, plan);
    var from := RunStage(world, plan.stages[0], "");
    assert RunStages(world, plan.stages, "") == RunStages(world, plan.stages[1..], from.out);
  }

  lemma {:induction false} DecompressorName(c: Codec)
    ensures IsUtility(Text(Decompressor(c)))
  {}

  lemma {:induction false} ReadArgsGood(path: string, codec: Option<Codec>)
    ensures GoodStage(Stage(true, ReadArgs(path, codec), false))
    ensures Argv(ReadArgs(path, codec))
         == (match codec case None => ["cat"] case Some(c) => [Decompressor(c), "-dc"]) + ["--", path]
    ensures Argv(ReadArgs(path, codec)) == ReaderWords(codec) + ["--", path]
  {
    assert "" + path == path;
    if codec.Some? { DecompressorName(codec.value); }
  }

  /** build_remote_cmd_read with a pattern, for every path, pattern, flag list and codec. */
  lemma {:induction false} ReadMeaning(world: World, path: string, p: string, flags: seq<string>, codec: Option<Codec>)
    ensures var from := world(Invocation([Binding("LC_ALL", "C")], ReaderWords(codec) + ["--", path], ""));
            var grep := world(Invocation([], ["grep"] + flags + ["-e", p, "--"], from.out));
            Run(world, BuildRead(path, Some(p), flags, codec)) == Some(Effect(grep.out, MaskedStatus(grep.status)))
  {
    ReadText(path, Some(p), flags, codec);
    ReadArgsGood(path, codec);
    FilterMeaning(world, ReadArgs(path, codec), p, flags);
  }

  /** Two hosts that differ at most in the exit status of one command. */
  ghost predicate SameBut(world: World, world': World, call: Invocation) {
    && world'(call).(status := world(call).status) == world(call)
    && forall inv :: inv != call ==> world'(inv) == world(inv)
  }

  /** The source's own exit status never shows: a file that cannot be read is like one without a match. */
  lemma {:induction false} SourceStatusIgnored(world: World, world': World, source: seq<Item>, p: string,
      flags: seq<string>)
    requires GoodStage(Stage(true, source, false))
    requires SameBut(world, world', Invocation([Binding("LC_ALL", "C")], Argv(source), ""))
    ensures Run(world', Line(FilterPlan(source, Some(p), flags)))
         == Run(world, Line(FilterPlan(source, Some(p), flags)))
  {
    FilterMeaning(world, source, p, flags);
    FilterMeaning(world', source, p, flags);
  }

  /** The command that reads a file of a codec. */
  function ReaderWords(codec: Option<Codec>): seq<string> {
    match codec
    case None => ["cat"]
    case Some(Gzip) => ["gzip", "-dc"]
    case Some(Zstd) => ["zstd", "-dc"]
    case Some(Xz) => ["xz", "-dc"]
    case Some(Bzip2) => ["bzip2", "-dc"]
    case Some(Lz4) => ["lz4", "-dc"]
  }

  /** Without a pattern the line is one command, and its words are the intended ones. */
  lemma {:induction false} ReadArgv(path: string, flags: seq<string>, codec: Option<Codec>)
    ensures ArgvUnderC(BuildRead(path, None, flags, codec)) == Some(ReaderWords(codec) + ["--", path])
  {
    ReadText(path, None, flags, codec);
    ReadArgsGood(path, codec);
    ArgvOfLine(ReadArgs(path, codec));
  }

  // ----- builders that grow a list of parts

  function OneCommand(args: seq<Item>): Plan { Plan([Stage(true, args, false)], false) }

  lemma {:induction false} OneCommandText(args: seq<Item>, parts: seq<string>)
    requires ShowItems([Text("LC_ALL=C")] + args) == parts
    ensures Line(OneCommand(args)) == Join(" ", parts)
  {
    assert StageItems(Stage(true, args, false)) == [Text("LC_ALL=C")] + args;
    assert PlanItems(OneCommand(args)) == [Text("LC_ALL=C")] + args;
  }

  lemma {:induction false} Grow(items: seq<Item>, parts: seq<string>, more: seq<Item>, moreParts: seq<string>)
    requires ShowItems(items) == parts && ShowItems(more) == moreParts
    ensures ShowItems(items + more) == parts + moreParts
  {
    assert ShowItems(items + more) == ShowItems(items) + ShowItems(more);
  }

  /** A flag and its quoted value, when there is one. */
  function OptionItems(flag: string, value: Option<string>): seq<Item> {
    match value case None => [] case Some(v) => [Text(flag), Value("", v)]
  }

  function OptionParts(flag: string, value: Option<string>): seq<string> {
    match value case None => [] case Some(v) => [flag, Quote(v)]
  }

  lemma {:induction false} ShowOption(flag: string, value: Option<string>)
    ensures ShowItems(OptionItems(flag, value)) == OptionParts(flag, value)
  {
    if value.Some? { assert "" + Quote(value.value) == Quote(value.value); }
  }

  // ----- parts added group by group

  function Concat<T>(groups: seq<seq<T>>): seq<T> {
    if groups == [] then [] else groups[0] + Concat(groups[1..])
  }

  /** The parts after the first `i` groups. */
  function PartsUpTo(start: seq<string>, groups: seq<seq<Item>>, i: nat): seq<string>
    requires i <= |groups|
  {
    if i == 0 then start else PartsUpTo(start, groups, i - 1) + ShowItems(groups[i - 1])
  }

  /** One more group has been added to the parts. */
  lemma {:induction false} AddPart(start: seq<string>, groups: seq<seq<Item>>, i: nat, more: seq<string>,
      parts: seq<string>)
    requires i < |groups| && ShowItems(groups[i]) == more
    requires parts == PartsUpTo(start, groups, i) + more
    ensures parts == PartsUpTo(start, groups, i + 1)
  {}

  lemma {:induction false} PartsSoFar(start: seq<string>, groups: seq<seq<Item>>, i: nat)
    requires i <= |groups|
    ensures PartsUpTo(start, groups, i) + ShowItems(Concat(groups[i..])) == start + ShowItems(Concat(groups))
  {
    if i == 0 {
      assert groups[0..] == groups;
    } else {
      PartsSoFar(start, groups, i - 1);
      assert groups[i - 1..][1..] == groups[i..];
      assert ShowItems(groups[i - 1] + Concat(groups[i..]))
          == ShowItems(groups[i - 1]) + ShowItems(Concat(groups[i..]));
    }
  }

  /** The joined parts are the printed form of the command with all groups. */
  lemma {:induction false} GroupsText(name: seq<Item>, groups: seq<seq<Item>>, start: seq<string>, parts: seq<string>)
    requires start == ShowItems([Text("LC_ALL=C")] + name)
    requires parts == PartsUpTo(start, groups, |groups|)
    ensures Line(OneCommand(name + Concat(groups))) == Join(" ", parts)
  {
    PartsSoFar(start, groups, |groups|);
    assert groups[|groups|..] == [];
    Grow([Text("LC_ALL=C")] + name, start, Concat(groups), ShowItems(Concat(groups)));
    assert [Text("LC_ALL=C")] + name + Concat(groups) == [Text("LC_ALL=C")] + (name + Concat(groups));
    OneCommandText(name + Concat(groups), parts);
  }

  lemma {:induction false} GroupsArgv(groups: seq<seq<Item>>, words: seq<seq<string>>)
    requires |groups| == |words|
    requires forall i | 0 <= i < |groups| :: AreArgs(groups[i]) && Argv(groups[i]) == words[i]
    ensures AreArgs(Concat(groups)) && Argv(Concat(groups)) == Concat(words)
  {
    if groups != [] {
      GroupsArgv(groups[1..], words[1..]);
      ArgvAppend(groups[0], Concat(groups[1..]));
    }
  }

  /** A flag that is present or not. */
  function Flag(on: bool, flag: string): seq<Item> { if on then [Text(flag)] else [] }

  function Switch(on: bool, flag: string): seq<string> { if on then [flag] else [] }

  /** A word glued from a literal prefix and a quoted value, when there is one. */
  function Glued(prefix: string, value: Option<string>): seq<Item> {
    match value case None => [] case Some(v) => [Value(prefix, v)]
  }

  function GluedWord(prefix: string, value: Option<string>): seq<string> {
    match value case None => [] case Some(v) => [prefix + v]
  }

  function GluedPart(prefix: string, value: Option<string>): seq<string> {
    match value case None => [] case Some(v) => [prefix + Quote(v)]
  }

  lemma {:induction false} FlagShown(on: bool, flag: string)
    ensures ShowItems(Flag(on, flag)) == Switch(on, flag)
    ensures flag != "" && AllPlain(flag) ==> AreArgs(Flag(on, flag)) && Argv(Flag(on, flag)) == Switch(on, flag)
  {}

  lemma {:induction false} GluedShown(prefix: string, value: Option<string>)
    ensures ShowItems(Glued(prefix, value)) == GluedPart(prefix, value)
    ensures AllPlain(prefix) ==>
              AreArgs(Glued(prefix, value)) && Argv(Glued(prefix, value)) == GluedWord(prefix, value)
  {}
}
