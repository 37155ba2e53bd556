/** The docker ps and docker logs builders (linux_info_mcp/tools/docker.py). */
module DockerCommands {
  import opened Wrappers
  import opened Text
  import opened Shell
  import opened Printing
  import opened Plans
  import opened Builders

  // ----- docker ps

  datatype Filter = Filter(key: string, value: string)

  datatype PsRequest = PsRequest(all: bool, size: bool, latest: bool, last: Option<nat>, quiet: bool, noTrunc: bool,
                                 formatFlag: Option<string>, filters: seq<Filter>)

  function FilterWord(f: Filter): string { f.key + "=" + f.value }

  function FilterItems(filters: seq<Filter>): seq<Item> {
    if filters == [] then []
    else FilterItems(filters[..|filters| - 1])
         + [Text("--filter"), Value("", FilterWord(filters[|filters| - 1]))]
  }

  function FilterWords(filters: seq<Filter>): seq<string> {
    if filters == [] then []
    else
      var last := filters[|filters| - 1];
      FilterWords(filters[..|filters| - 1]) + ["--filter", last.key + "=" + last.value]
  }

  function LastWords(last: Option<nat>): seq<string> {
    match last case None => [] case Some(n) => ["-n", NatStr(n)]
  }

  function FormatWord(flag: Option<string>): seq<string> {
    match flag case None => [] case Some(f) => [f]
  }

  function PsGroups(q: PsRequest): seq<seq<Item>> {
    [Flag(q.all, "-a"), Flag(q.size, "-s"), Flag(q.latest, "-l"), Words(LastWords(q.last)), Flag(q.quiet, "-q"),
     Flag(q.noTrunc, "--no-trunc"), Words(FormatWord(q.formatFlag)), FilterItems(q.filters)]
  }

  function PsWordGroups(q: PsRequest): seq<seq<string>> {
    [Switch(q.all, "-a"), Switch(q.size, "-s"), Switch(q.latest, "-l"),
     if q.last.Some? then ["-n", NatStr(q.last.value)] else [], Switch(q.quiet, "-q"), Switch(q.noTrunc, "--no-trunc"),
     if q.formatFlag.Some? then ["--format=json"] else [], FilterWords(q.filters)]
  }

  const DOCKER_PS: seq<Item> := [Text("docker"), Text("ps")]

  function PsArgs(q: PsRequest): seq<Item> { DOCKER_PS + Concat(PsGroups(q)) }

  function PsWords(q: PsRequest): seq<string> { ["docker", "ps"] + Concat(PsWordGroups(q)) }

  /** At most one of the three ways to choose containers. */
  predicate ExclusivePs(q: PsRequest) {
    !(q.all && q.latest) && !(q.all && q.last.Some?) && !(q.latest && q.last.Some?)
  }

  lemma {:induction false} ShowFilters(filters: seq<Filter>)
    ensures |ShowItems(FilterItems(filters))| == 2 * |filters|
    ensures AreArgs(FilterItems(filters)) && Argv(FilterItems(filters)) == FilterWords(filters)
  {
    if filters != [] {
      var front, word := filters[..|filters| - 1], FilterWord(filters[|filters| - 1]);
      var pair := [Text("--filter"), Value("", word)];
      ShowFilters(front);
      assert "" + word == word;
      assert AreArgs(pair) && Argv(pair) == ["--filter", word];
      ArgvAppend(FilterItems(front), pair);
    }
  }

  method BuildDockerPs(q: PsRequest) returns (r: Result<string>)
    ensures r.Ok? <==> ExclusivePs(q)
    ensures r.Raises? ==>
              r.error == ValueError(if q.all && q.latest then "all and latest are mutually exclusive"
                                    else if q.all then "all and last are mutually exclusive"
                                    else "latest and last are mutually exclusive")
    ensures r.Ok? ==> r.value == Line(OneCommand(PsArgs(q)))
  {
    if q.all && q.latest { return Raises(ValueError("all and latest are mutually exclusive")); }
    if q.all && q.last.Some? { return Raises(ValueError("all and last are mutually exclusive")); }
    if q.latest && q.last.Some? { return Raises(ValueError("latest and last are mutually exclusive")); }
    var start := ["LC_ALL=C", "docker", "ps"];
    var parts := AddSelection(q, start);
    parts := AddDisplay(q, start, parts);
    parts := AddFilters(parts, q.filters);
    PsText(q, parts);
    r := Ok(Join(" ", parts));
  }

  /** The flags that choose containers and count their sizes. */
  method AddSelection(q: PsRequest, start: seq<string>) returns (parts: seq<string>)
    ensures parts == PartsUpTo(start, PsGroups(q), 4)
  {
    ghost var groups := PsGroups(q);
    PsShown(q);
    parts := start;
    if q.all { parts := parts + ["-a"]; }
    AddPart(start, groups, 0, Switch(q.all, "-a"), parts);
    if q.size { parts := parts + ["-s"]; }
    AddPart(start, groups, 1, Switch(q.size, "-s"), parts);
    if q.latest { parts := parts + ["-l"]; }
    AddPart(start, groups, 2, Switch(q.latest, "-l"), parts);
    if q.last.Some? { parts := parts + ["-n", NatStr(q.last.value)]; }
    AddPart(start, groups, 3, LastWords(q.last), parts);
  }

  /** The flags that shape the listing. */
  method AddDisplay(q: PsRequest, start: seq<string>, soFar: seq<string>) returns (parts: seq<string>)
    requires soFar == PartsUpTo(start, PsGroups(q), 4)
    ensures parts == PartsUpTo(start, PsGroups(q), 7)
  {
    ghost var groups := PsGroups(q);
    PsShown(q);
    parts := soFar;
    if q.quiet { parts := parts + ["-q"]; }
    AddPart(start, groups, 4, Switch(q.quiet, "-q"), parts);
    if q.noTrunc { parts := parts + ["--no-trunc"]; }
    AddPart(start, groups, 5, Switch(q.noTrunc, "--no-trunc"), parts);
    if q.formatFlag.Some? { parts := parts + [q.formatFlag.value]; }
    AddPart(start, groups, 6, FormatWord(q.formatFlag), parts);
  }

  method AddFilters(start: seq<string>, filters: seq<Filter>) returns (parts: seq<string>)
    ensures parts == start + ShowItems(FilterItems(filters))
  {
    parts := start;
    for i := 0 to |filters|
      invariant parts == start + ShowItems(FilterItems(filters[..i]))
    {
      var word := FilterWord(filters[i]);
      assert filters[..i + 1][..i] == filters[..i];
      assert "" + Quote(word) == Quote(word);
      Grow(FilterItems(filters[..i]), ShowItems(FilterItems(filters[..i])),
           [Text("--filter"), Value("", word)], ["--filter", Quote(word)]);
      parts := parts + ["--filter", Quote(word)];
    }
    assert filters[..|filters|] == filters;
  }

  lemma {:induction false} PsShown(q: PsRequest)
    ensures var g := PsGroups(q);
            && ShowItems(g[0]) == Switch(q.all, "-a") && ShowItems(g[1]) == Switch(q.size, "-s")
            && ShowItems(g[2]) == Switch(q.latest, "-l") && ShowItems(g[3]) == LastWords(q.last)
            && ShowItems(g[4]) == Switch(q.quiet, "-q") && ShowItems(g[5]) == Switch(q.noTrunc, "--no-trunc")
            && ShowItems(g[6]) == FormatWord(q.formatFlag)
  {
    FlagShown(q.all, "-a");
    FlagShown(q.size, "-s");
    FlagShown(q.latest, "-l");
    FlagShown(q.quiet, "-q");
    FlagShown(q.noTrunc, "--no-trunc");
  }

  lemma {:induction false} PsText(q: PsRequest, parts: seq<string>)
    requires parts == PartsUpTo(["LC_ALL=C", "docker", "ps"], PsGroups(q), 8)
    ensures Line(OneCommand(PsArgs(q))) == Join(" ", parts)
  {
    assert ShowItems([Text("LC_ALL=C")] + DOCKER_PS) == ["LC_ALL=C", "docker", "ps"];
    GroupsText(DOCKER_PS, PsGroups(q), ["LC_ALL=C", "docker", "ps"], parts);
  }

  lemma {:induction false} LastGood(last: Option<nat>)
    ensures AreArgs(Words(LastWords(last))) && Argv(Words(LastWords(last))) == LastWords(last)
  {}

  /** The one flag the format table can give. */
  predicate ValidFormat(flag: Option<string>) { flag.Some? ==> flag.value == "--format=json" }

  lemma {:induction false} FormatGood(flag: Option<string>)
    requires ValidFormat(flag)
    ensures AreArgs(Words(FormatWord(flag))) && Argv(Words(FormatWord(flag))) == FormatWord(flag)
  {}

  lemma {:induction false} PsSwitches(q: PsRequest)
    ensures forall i | i in {0, 1, 2} :: AreArgs(PsGroups(q)[i]) && Argv(PsGroups(q)[i]) == PsWordGroups(q)[i]
  {
    FlagShown(q.all, "-a");
    FlagShown(q.size, "-s");
    FlagShown(q.latest, "-l");
  }

  lemma {:induction false} PsMoreSwitches(q: PsRequest)
    ensures forall i | i in {4, 5} :: AreArgs(PsGroups(q)[i]) && Argv(PsGroups(q)[i]) == PsWordGroups(q)[i]
  {
    FlagShown(q.quiet, "-q");
    FlagShown(q.noTrunc, "--no-trunc");
  }

  lemma {:induction false} PsGroupsGood(q: PsRequest)
    requires ValidFormat(q.formatFlag)
    ensures AreArgs(Concat(PsGroups(q))) && Argv(Concat(PsGroups(q))) == Concat(PsWordGroups(q))
  {
    PsSwitches(q);
    PsMoreSwitches(q);
    LastGood(q.last);
    FormatGood(q.formatFlag);
    ShowFilters(q.filters);
    forall i | 0 <= i < 8 ensures AreArgs(PsGroups(q)[i]) && Argv(PsGroups(q)[i]) == PsWordGroups(q)[i] {
      assert i in {0, 1, 2} || i == 3 || i in {4, 5} || i == 6 || i == 7;
    }
    GroupsArgv(PsGroups(q), PsWordGroups(q));
  }

  lemma {:induction false} PsArgsGood(q: PsRequest)
    requires ValidFormat(q.formatFlag)
    ensures GoodStage(Stage(true, PsArgs(q), false)) && Argv(PsArgs(q)) == PsWords(q)
  {
    PsGroupsGood(q);
    DockerPsGood();
    ArgvAppend(DOCKER_PS, Concat(PsGroups(q)));
  }

  lemma {:induction false} DockerPsGood()
    ensures AreArgs(DOCKER_PS) && Argv(DOCKER_PS) == ["docker", "ps"] && IsUtility(DOCKER_PS[0])
  {}

  /** Every filter reaches docker as one `key=value` word, whatever its characters. */
  lemma {:induction false} PsRoundTrip(q: PsRequest)
    requires ValidFormat(q.formatFlag)
    ensures ArgvUnderC(Line(OneCommand(PsArgs(q)))) == Some(PsWords(q))
  {
    PsArgsGood(q);
    ArgvOfLine(PsArgs(q));
  }

  // ----- docker logs

  datatype LogsRequest = LogsRequest(container: string, tail: nat, since: Option<string>, until: Option<string>,
                                     timestamps: bool, pattern: Option<string>, flags: seq<string>)

  const DOCKER_LOGS: seq<Item> := [Text("docker"), Text("logs")]

  function LogsGroups(q: LogsRequest): seq<seq<Item>> {
    [OptionItems("--tail", Some(NatStr(q.tail))), Glued("--since=", q.since), Glued("--until=", q.until),
     Flag(q.timestamps, "--timestamps"), OptionItems("--", Some(q.container))]
  }

  function LogsWordGroups(q: LogsRequest): seq<seq<string>> {
    [["--tail", NatStr(q.tail)], GluedWord("--since=", q.since), GluedWord("--until=", q.until),
     Switch(q.timestamps, "--timestamps"), ["--", q.container]]
  }

  function LogsArgs(q: LogsRequest): seq<Item> { DOCKER_LOGS + Concat(LogsGroups(q)) }

  function LogsWords(q: LogsRequest): seq<string> { ["docker", "logs"] + Concat(LogsWordGroups(q)) }

  function LogsGrepArgs(flags: seq<string>, p: string): seq<Item> {
    [Text("grep")] + Values(flags) + [Text("--"), Value("", p)]
  }

  /** With a pattern both streams of the container's log go through grep. */
  function LogsPlan(q: LogsRequest): Plan {
    match q.pattern
    case None => OneCommand(LogsArgs(q))
    case Some(p) => Plan([Stage(true, LogsArgs(q), true), Stage(false, LogsGrepArgs(q.flags, p), false)], true)
  }

  method BuildDockerLogs(q: LogsRequest) returns (cmd: string)
    ensures cmd == Line(LogsPlan(q))
  {
    var start := ["LC_ALL=C", "docker", "logs"];
    ghost var groups := LogsGroups(q);
    LogsShown(q);
    var parts := start + ["--tail", Quote(NatStr(q.tail))];
    AddPart(start, groups, 0, ["--tail", Quote(NatStr(q.tail))], parts);
    if q.since.Some? { parts := parts + ["--since=" + Quote(q.since.value)]; }
    AddPart(start, groups, 1, GluedPart("--since=", q.since), parts);
    if q.until.Some? { parts := parts + ["--until=" + Quote(q.until.value)]; }
    AddPart(start, groups, 2, GluedPart("--until=", q.until), parts);
    if q.timestamps { parts := parts + ["--timestamps"]; }
    AddPart(start, groups, 3, Switch(q.timestamps, "--timestamps"), parts);
    parts := parts + ["--", Quote(q.container)];
    AddPart(start, groups, 4, ["--", Quote(q.container)], parts);
    LogsText(q, parts);
    cmd := Join(" ", parts);
    if q.pattern.Some? {
      var grepParts := ["2>&1", "|", "grep"];
      for i := 0 to |q.flags|
        invariant grepParts == ["2>&1", "|", "grep"] + Quotes(q.flags[..i])
      {
        assert Quotes(q.flags[..i + 1]) == Quotes(q.flags[..i]) + [Quote(q.flags[i])];
        grepParts := grepParts + [Quote(q.flags[i])];
      }
      assert q.flags[..|q.flags|] == q.flags;
      grepParts := grepParts + ["--", Quote(q.pattern.value)];
      LogsGrepText(q, cmd, grepParts);
      cmd := cmd + " " + Join(" ", grepParts) + " || [ $? -eq 1 ]";
    }
  }

  lemma {:induction false} LogsShown(q: LogsRequest)
    ensures var g := LogsGroups(q);
            && ShowItems(g[0]) == ["--tail", Quote(NatStr(q.tail))] && ShowItems(g[1]) == GluedPart("--since=", q.since)
            && ShowItems(g[2]) == GluedPart("--until=", q.until)
            && ShowItems(g[3]) == Switch(q.timestamps, "--timestamps")
            && ShowItems(g[4]) == ["--", Quote(q.container)]
  {
    ShowOption("--tail", Some(NatStr(q.tail)));
    GluedShown("--since=", q.since);
    GluedShown("--until=", q.until);
    FlagShown(q.timestamps, "--timestamps");
    ShowOption("--", Some(q.container));
  }

  lemma {:induction false} LogsText(q: LogsRequest, parts: seq<string>)
    requires parts == PartsUpTo(["LC_ALL=C", "docker", "logs"], LogsGroups(q), 5)
    ensures Line(OneCommand(LogsArgs(q))) == Join(" ", parts)
    ensures Join(" ", parts) == Show([Text("LC_ALL=C")] + LogsArgs(q))
  {
    assert ShowItems([Text("LC_ALL=C")] + DOCKER_LOGS) == ["LC_ALL=C", "docker", "logs"];
    GroupsText(DOCKER_LOGS, LogsGroups(q), ["LC_ALL=C", "docker", "logs"], parts);
    assert PlanItems(OneCommand(LogsArgs(q))) == [Text("LC_ALL=C")] + LogsArgs(q);
  }

  /** What stands between the source and the mask. */
  function GrepMiddle(flags: seq<string>, p: string): seq<Item> { [ErrToOut, Symbol("|")] + LogsGrepArgs(flags, p) }

  lemma {:induction false} GrepMiddleShown(flags: seq<string>, p: string)
    ensures ShowItems(GrepMiddle(flags, p)) == ["2>&1", "|", "grep"] + Quotes(flags) + ["--", Quote(p)]
  {
    ShowQuotes(flags);
    var tail := [Text("--"), Value("", p)];
    assert "" + Quote(p) == Quote(p);
    assert ShowItems(tail) == ["--", Quote(p)];
    Grow([Text("grep")], ["grep"], Values(flags), Quotes(flags));
    Grow([Text("grep")] + Values(flags), ["grep"] + Quotes(flags), tail, ["--", Quote(p)]);
    Grow([ErrToOut, Symbol("|")], ["2>&1", "|"], LogsGrepArgs(flags, p), ["grep"] + Quotes(flags) + ["--", Quote(p)]);
  }

  lemma {:induction false} GrepPlanItems(source: seq<Item>, grep: seq<Item>)
    ensures PlanItems(Plan([Stage(true, source, true), Stage(false, grep, false)], true))
         == [Text("LC_ALL=C")] + source + ([ErrToOut, Symbol("|")] + grep) + MASK
  {
    var stages := [Stage(true, source, true), Stage(false, grep, false)];
    assert StageItems(stages[0]) == [Text("LC_ALL=C")] + source + [ErrToOut] && StageItems(stages[1]) == grep;
    assert stages[1..] == [stages[1]] && PipeItems(stages[1..]) == grep;
    assert [Text("LC_ALL=C")] + source + [ErrToOut] + [Symbol("|")] + grep
        == [Text("LC_ALL=C")] + source + ([ErrToOut, Symbol("|")] + grep);
  }

  lemma {:induction false} LogsGrepText(q: LogsRequest, cmd: string, grepParts: seq<string>)
    requires q.pattern.Some? && cmd == Show([Text("LC_ALL=C")] + LogsArgs(q))
    requires grepParts == ["2>&1", "|", "grep"] + Quotes(q.flags) + ["--", Quote(q.pattern.value)]
    ensures Line(LogsPlan(q)) == cmd + " " + Join(" ", grepParts) + " || [ $? -eq 1 ]"
  {
    var source := [Text("LC_ALL=C")] + LogsArgs(q);
    var middle := GrepMiddle(q.flags, q.pattern.value);
    GrepPlanItems(LogsArgs(q), LogsGrepArgs(q.flags, q.pattern.value));
    GrepMiddleShown(q.flags, q.pattern.value);
    ShowAppend(source, middle);
    ShowAppend(source + middle, MASK);
    ShowMask();
    MaskSpacing(cmd + " " + Join(" ", grepParts));
  }

  lemma {:induction false} MaskSpacing(s: string)
    ensures s + " " + "|| [ $? -eq 1 ]" == s + " || [ $? -eq 1 ]"
  {
    assert s + " " + "|| [ $? -eq 1 ]" == s + (" " + "|| [ $? -eq 1 ]");
  }

  lemma {:induction false} LogsValues(q: LogsRequest)
    ensures forall i | i in {0, 4} :: AreArgs(LogsGroups(q)[i]) && Argv(LogsGroups(q)[i]) == LogsWordGroups(q)[i]
  {
    assert "" + NatStr(q.tail) == NatStr(q.tail) && "" + q.container == q.container;
  }

  lemma {:induction false} LogsTimes(q: LogsRequest)
    ensures AreArgs(Glued("--since=", q.since)) && Argv(Glued("--since=", q.since)) == GluedWord("--since=", q.since)
    ensures AreArgs(Glued("--until=", q.until)) && Argv(Glued("--until=", q.until)) == GluedWord("--until=", q.until)
  {
    assert AllPlain("--since=") && AllPlain("--until=");
  }

  lemma {:induction false} LogsSwitch(q: LogsRequest)
    ensures AreArgs(Flag(q.timestamps, "--timestamps"))
    ensures Argv(Flag(q.timestamps, "--timestamps")) == Switch(q.timestamps, "--timestamps")
  {}

  lemma {:induction false} LogsGroupsGood(q: LogsRequest)
    ensures AreArgs(Concat(LogsGroups(q))) && Argv(Concat(LogsGroups(q))) == Concat(LogsWordGroups(q))
  {
    LogsValues(q);
    LogsTimes(q);
    LogsSwitch(q);
    forall i | 0 <= i < 5 ensures AreArgs(LogsGroups(q)[i]) && Argv(LogsGroups(q)[i]) == LogsWordGroups(q)[i] {
      assert i in {0, 4} || i == 1 || i == 2 || i == 3;
    }
    GroupsArgv(LogsGroups(q), LogsWordGroups(q));
  }

  lemma {:induction false} LogsArgsGood(q: LogsRequest, merge: bool)
    ensures GoodStage(Stage(true, LogsArgs(q), merge)) && Argv(LogsArgs(q)) == LogsWords(q)
  {
    LogsGroupsGood(q);
    assert AreArgs(DOCKER_LOGS) && Argv(DOCKER_LOGS) == ["docker", "logs"];
    ArgvAppend(DOCKER_LOGS, Concat(LogsGroups(q)));
  }

  lemma {:induction false} LogsGrepGood(flags: seq<string>, p: string)
    ensures GoodStage(Stage(false, LogsGrepArgs(flags, p), false))
    ensures Argv(LogsGrepArgs(flags, p)) == ["grep"] + flags + ["--", p]
  {
    var head, tail := [Text("grep")], [Text("--"), Value("", p)];
    ArgvValues(flags);
    assert "" + p == p;
    assert AreArgs(head) && Argv(head) == ["grep"];
    assert AreArgs(tail) && Argv(tail) == ["--", p];
    ArgvAppend(head, Values(flags));
    ArgvAppend(head + Values(flags), tail);
    assert LogsGrepArgs(flags, p)[0] == Text("grep");
  }

  /** Without a pattern: one command, with since and until glued to their flags. */
  lemma {:induction false} LogsRoundTrip(q: LogsRequest)
    requires q.pattern.None?
    ensures ArgvUnderC(Line(LogsPlan(q))) == Some(LogsWords(q))
  {
    LogsArgsGood(q, false);
    ArgvOfLine(LogsArgs(q));
  }

  /** With a pattern: grep reads the container's two streams mixed, and only its result shows. */
  lemma {:induction false} LogsMeaning(world: World, q: LogsRequest)
    requires q.pattern.Some?
    ensures var from := world(Invocation([Binding("LC_ALL", "C")], LogsWords(q), ""));
            var grep := world(Invocation([], ["grep"] + q.flags + ["--", q.pattern.value], from.mixed));
            Run(world, Line(LogsPlan(q))) == Some(Effect(grep.out, MaskedStatus(grep.status)))
  {
    var plan := LogsPlan(q);
    LogsArgsGood(q, true);
    LogsGrepGood(q.flags, q.pattern.value);
    assert plan.stages[1..] == [plan.stages[1]];
    assert GoodPlan(plan);
    RunLine(world, plan);
    var from := RunStage(world, plan.stages[0], "");
    assert RunStages(world, plan.stages, "") == RunStages(world, plan.stages[1..], from.out);
  }
}
