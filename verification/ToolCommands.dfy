/** The builders for byte windows (linux_info_mcp/ssh.py), archives (tools/archive.py) and stat (tools/fs.py). */
module ToolCommands {
  import opened Wrappers
  import opened Text
  import opened Shell
  import opened Printing
  import opened Plans
  import opened Builders

  // ----- lines that end in base64

  const BASE64_ARGS: seq<Item> := [Text("base64"), Text("-w"), Text("0")]

  function Base64Stage(): Stage { Stage(false, BASE64_ARGS, false) }

  lemma {:induction false} Base64Good()
    ensures GoodStage(Base64Stage()) && Argv(BASE64_ARGS) == ["base64", "-w", "0"]
  {}

  lemma {:induction false} Base64Shown()
    ensures Show(BASE64_ARGS) == "base64 -w 0"
  {
    assert ShowItems(BASE64_ARGS) == ["base64", "-w", "0"];
    Join3("base64", "-w", "0");
    assert "base64" + " " + "-w" + " " + "0" == "base64 -w 0";
  }

  lemma {:induction false} AddBase64Items(stages: seq<Stage>)
    requires stages != []
    ensures PipeItems(stages + [Base64Stage()]) == PipeItems(stages) + [Symbol("|")] + BASE64_ARGS
  {
    assert StageItems(Base64Stage()) == BASE64_ARGS;
    var all := stages + [Base64Stage()];
    if |stages| == 1 {
      assert all[1..] == [Base64Stage()];
    } else {
      assert all[1..] == stages[1..] + [Base64Stage()];
      AddBase64Items(stages[1..]);
    }
  }

  lemma {:induction false} StagesShown(stages: seq<Stage>)
    requires stages != [] && GoodStages(stages)
    ensures PipeItems(stages) != []
  {
    StageItemsGood(stages[0]);
  }

  /** Appending ` | base64 -w 0` to a printed pipeline prints the pipeline with one more stage. */
  lemma {:induction false} AddBase64Text(stages: seq<Stage>)
    requires stages != [] && GoodStages(stages)
    ensures Line(Plan(stages + [Base64Stage()], false)) == Line(Plan(stages, false)) + " | base64 -w 0"
  {
    var items := PipeItems(stages);
    StagesShown(stages);
    AddBase64Items(stages);
    Base64Shown();
    assert PlanItems(Plan(stages + [Base64Stage()], false)) == items + [Symbol("|")] + BASE64_ARGS;
    assert PlanItems(Plan(stages, false)) == items;
    ShowAppend(items, [Symbol("|")]);
    ShowWord(Symbol("|"));
    ShowAppend(items + [Symbol("|")], BASE64_ARGS);
    Base64Spacing(Show(items));
  }

  lemma {:induction false} Base64Spacing(s: string)
    ensures s + " " + "|" + " " + "base64 -w 0" == s + " | base64 -w 0"
  {
    assert " " + "|" + " " + "base64 -w 0" == " | base64 -w 0";
    assert s + " " + "|" + " " + "base64 -w 0" == s + (" " + "|" + " " + "base64 -w 0");
  }

  lemma {:induction false} AddBase64Runs(world: World, stages: seq<Stage>, stdin: string)
    requires stages != [] && GoodStages(stages)
    ensures GoodStage(Base64Stage()) && GoodStages(stages + [Base64Stage()])
    ensures var o := world(Invocation([], ["base64", "-w", "0"], RunStages(world, stages, stdin).out));
            RunStages(world, stages + [Base64Stage()], stdin) == Effect(o.out, o.status)
  {
    Base64Good();
    var all := stages + [Base64Stage()];
    if |stages| == 1 {
      assert all[1..] == [Base64Stage()];
    } else {
      assert all[1..] == stages[1..] + [Base64Stage()];
      AddBase64Runs(world, stages[1..], RunStage(world, stages[0], stdin).out);
    }
  }

  // ----- byte windows

  /** dd's words after its input file. */
  function WindowItems(offset: nat, length: nat): seq<Item> {
    [Text("ibs=1"), Value("skip=", NatStr(offset)), Value("count=", NatStr(length)), Text("status=none")]
  }

  function WindowStages(path: string, offset: nat, length: nat, codec: Option<Codec>): seq<Stage> {
    match codec
    case None => [Stage(true, [Text("dd"), Value("if=", path)] + WindowItems(offset, length), false)]
    case Some(c) =>
      [Stage(true, ReadArgs(path, codec), false), Stage(false, [Text("dd")] + WindowItems(offset, length), false)]
  }

  function WindowText(offset: nat, length: nat): string {
    " ibs=1" + " skip=" + Quote(NatStr(offset)) + " count=" + Quote(NatStr(length)) + " status=none"
  }

  function BuildBinary(path: string, offset: nat, length: nat, codec: Option<Codec>): string {
    match codec
    case None => "LC_ALL=C " + "dd" + " if=" + Quote(path) + WindowText(offset, length) + " | base64 -w 0"
    case Some(_) => ReadSource(path, codec) + " | " + "dd" + WindowText(offset, length) + " | base64 -w 0"
  }

  lemma {:induction false} ShowWindow(offset: nat, length: nat)
    ensures " " + Show(WindowItems(offset, length)) == WindowText(offset, length)
  {
    var skip, count := Quote(NatStr(offset)), Quote(NatStr(length));
    assert ShowItems(WindowItems(offset, length)) == ["ibs=1", "skip=" + skip, "count=" + count, "status=none"];
    Join4("ibs=1", "skip=" + skip, "count=" + count, "status=none");
    WindowSpacing(skip, count);
  }

  lemma {:induction false} WindowSpacing(skip: string, count: string)
    ensures " " + ("ibs=1" + " " + ("skip=" + skip) + " " + ("count=" + count) + " " + "status=none")
         == " ibs=1" + " skip=" + skip + " count=" + count + " status=none"
  {
    assert " " + "ibs=1" == " ibs=1" && " " + "skip=" == " skip=";
    assert " " + "count=" == " count=" && " " + "status=none" == " status=none";
    assert " " + ("ibs=1" + " " + ("skip=" + skip) + " " + ("count=" + count) + " " + "status=none")
        == (" " + "ibs=1") + (" " + "skip=") + skip + (" " + "count=") + count + (" " + "status=none");
  }

  lemma {:induction false} WindowGood(path: string, offset: nat, length: nat)
    ensures var args := [Text("dd"), Value("if=", path)] + WindowItems(offset, length);
            GoodStage(Stage(true, args, false))
            && Argv(args) == ["dd", "if=" + path] + WindowWords(offset, length)
  {
    var head := [Text("dd"), Value("if=", path)];
    WindowItemsGood(offset, length);
    assert AreArgs(head) && Argv(head) == ["dd", "if=" + path];
    ArgvAppend(head, WindowItems(offset, length));
  }

  lemma {:induction false} WindowItemsGood(offset: nat, length: nat)
    ensures AreArgs(WindowItems(offset, length)) && Argv(WindowItems(offset, length)) == WindowWords(offset, length)
  {
    WindowPrefixesPlain();
  }

  lemma {:induction false} WindowPrefixesPlain()
    ensures AllPlain("ibs=1") && AllPlain("skip=") && AllPlain("count=") && AllPlain("status=none")
  {}

  lemma {:induction false} PipedWindowGood(offset: nat, length: nat)
    ensures var args := [Text("dd")] + WindowItems(offset, length);
            GoodStage(Stage(false, args, false)) && Argv(args) == ["dd"] + WindowWords(offset, length)
  {
    WindowItemsGood(offset, length);
    assert AreArgs([Text("dd")]) && Argv([Text("dd")]) == ["dd"];
    ArgvAppend([Text("dd")], WindowItems(offset, length));
  }

  function WindowWords(offset: nat, length: nat): seq<string> {
    ["ibs=1", "skip=" + NatStr(offset), "count=" + NatStr(length), "status=none"]
  }

  lemma {:induction false} WindowStagesGood(path: string, offset: nat, length: nat, codec: Option<Codec>)
    ensures GoodStages(WindowStages(path, offset, length, codec))
  {
    WindowGood(path, offset, length);
    PipedWindowGood(offset, length);
    ReadArgsGood(path, codec);
  }

  lemma {:induction false} PlainWindowText(path: string, offset: nat, length: nat)
    ensures Line(Plan(WindowStages(path, offset, length, None), false))
         == "LC_ALL=C " + "dd" + " if=" + Quote(path) + WindowText(offset, length)
  {
    var head := [Text("LC_ALL=C"), Text("dd"), Value("if=", path)];
    var args := [Text("dd"), Value("if=", path)] + WindowItems(offset, length);
    assert PlanItems(Plan([Stage(true, args, false)], false)) == head + WindowItems(offset, length);
    ShowAppend(head, WindowItems(offset, length));
    assert ShowItems(head) == ["LC_ALL=C", "dd", "if=" + Quote(path)];
    Join3("LC_ALL=C", "dd", "if=" + Quote(path));
    ShowWindow(offset, length);
    DdSpacing(Quote(path), Show(WindowItems(offset, length)));
  }

  lemma {:induction false} DdSpacing(path: string, window: string)
    ensures "LC_ALL=C" + " " + "dd" + " " + ("if=" + path) + " " + window
         == "LC_ALL=C " + "dd" + " if=" + path + (" " + window)
  {
    assert "LC_ALL=C" + " " == "LC_ALL=C " && " " + "if=" == " if=";
    assert "LC_ALL=C" + " " + "dd" + " " + ("if=" + path) + " " + window
        == ("LC_ALL=C" + " ") + "dd" + (" " + "if=") + path + (" " + window);
  }

  lemma {:induction false} CodecWindowText(path: string, offset: nat, length: nat, codec: Option<Codec>)
    requires codec.Some?
    ensures Line(Plan(WindowStages(path, offset, length, codec), false))
         == ReadSource(path, codec) + " | " + "dd" + WindowText(offset, length)
  {
    var source := [Text("LC_ALL=C")] + ReadArgs(path, codec);
    var stages := WindowStages(path, offset, length, codec);
    var dd := [Text("dd")] + WindowItems(offset, length);
    assert StageItems(stages[0]) == source && StageItems(stages[1]) == dd;
    assert stages[1..] == [stages[1]] && PipeItems(stages[1..]) == dd;
    assert PlanItems(Plan(stages, false)) == source + [Symbol("|")] + dd;
    ReadSourceText(path, codec);
    ShowAppend(source, [Symbol("|")]);
    ShowWord(Symbol("|"));
    ShowAppend(source + [Symbol("|")], dd);
    ShowWord(Text("dd"));
    ShowAppend([Text("dd")], WindowItems(offset, length));
    ShowWindow(offset, length);
    PipeSpacing(Show(source), Show(WindowItems(offset, length)));
  }

  lemma {:induction false} PipeSpacing(source: string, window: string)
    ensures source + " " + "|" + " " + ("dd" + " " + window) == source + " | " + "dd" + (" " + window)
  {
    assert " " + "|" + " " == " | ";
    assert source + " " + "|" + " " + ("dd" + " " + window) == source + (" " + "|" + " ") + "dd" + (" " + window);
  }

  lemma {:induction false} BinaryText(path: string, offset: nat, length: nat, codec: Option<Codec>)
    ensures BuildBinary(path, offset, length, codec)
         == Line(Plan(WindowStages(path, offset, length, codec) + [Base64Stage()], false))
  {
    var stages := WindowStages(path, offset, length, codec);
    WindowStagesGood(path, offset, length, codec);
    AddBase64Text(stages);
    match codec {
      case None => PlainWindowText(path, offset, length);
      case Some(_) => CodecWindowText(path, offset, length, codec);
    }
  }

  /**
   A binary read cuts the window out of the file, or out of the decompressed stream, and yields what
   base64 makes of it: the window applies after decompression.
   */
  lemma {:induction false} BinaryMeaning(world: World, path: string, offset: nat, length: nat, codec: Option<Codec>)
    ensures var locale := [Binding("LC_ALL", "C")];
            var window :=
              match codec
              case None => world(Invocation(locale, ["dd", "if=" + path] + WindowWords(offset, length), ""))
              case Some(c) =>
                var plain := world(Invocation(locale, [Decompressor(c), "-dc", "--", path], ""));
                world(Invocation([], ["dd"] + WindowWords(offset, length), plain.out));
            var o := world(Invocation([], ["base64", "-w", "0"], window.out));
            Run(world, BuildBinary(path, offset, length, codec)) == Some(Effect(o.out, o.status))
  {
    var stages := WindowStages(path, offset, length, codec);
    BinaryText(path, offset, length, codec);
    WindowStagesGood(path, offset, length, codec);
    WindowGood(path, offset, length);
    PipedWindowGood(offset, length);
    ReadArgsGood(path, codec);
    AddBase64Runs(world, stages, "");
    RunLine(world, Plan(stages + [Base64Stage()], false));
    if codec.Some? {
      assert stages[1..] == [stages[1]];
      assert [Decompressor(codec.value), "-dc"] + ["--", path] == [Decompressor(codec.value), "-dc", "--", path];
    }
  }

  // ----- archives

  datatype ArchiveFormat = Tar | TarGz | TarXz | TarBz2 | TarZst | Zip

  function TarCompression(fmt: ArchiveFormat): seq<string> {
    match fmt
    case TarGz => ["-z"]
    case TarXz => ["-J"]
    case TarBz2 => ["-j"]
    case TarZst => ["--zstd"]
    case _ => []
  }

  function TarArgs(fmt: ArchiveFormat, op: string, path: string, member: Option<string>): seq<Item> {
    [Text("tar"), Text("-" + op)] + Words(TarCompression(fmt)) + [Text("-f"), Value("", path)]
    + OptionItems("--", member)
  }

  method TarCommand(fmt: ArchiveFormat, op: string, path: string, member: Option<string>) returns (cmd: string)
    ensures cmd == Line(OneCommand(TarArgs(fmt, op, path, member)))
  {
    var parts := ["LC_ALL=C", "tar", "-" + op] + TarCompression(fmt) + ["-f", Quote(path)];
    ghost var items := [Text("LC_ALL=C"), Text("tar"), Text("-" + op)] + Words(TarCompression(fmt))
                       + [Text("-f"), Value("", path)];
    assert "" + Quote(path) == Quote(path);
    assert ShowItems(items) == parts;
    ShowOption("--", member);
    Grow(items, parts, OptionItems("--", member), OptionParts("--", member));
    if member.Some? {
      parts := parts + ["--", Quote(member.value)];
    }
    assert items + OptionItems("--", member) == [Text("LC_ALL=C")] + TarArgs(fmt, op, path, member);
    assert ShowItems([Text("LC_ALL=C")] + TarArgs(fmt, op, path, member)) == parts;
    OneCommandText(TarArgs(fmt, op, path, member), parts);
    cmd := Join(" ", parts);
  }

  /** The command that writes one member to its standard output. */
  function MemberArgs(fmt: ArchiveFormat, path: string, member: string): seq<Item> {
    if fmt.Zip? then [Text("unzip"), Text("-p"), Value("", path), Value("", member)]
    else TarArgs(fmt, "xO", path, Some(member))
  }

  function MemberWords(fmt: ArchiveFormat, path: string, member: string): seq<string> {
    match fmt
    case Zip => ["unzip", "-p", path, member]
    case Tar => ["tar", "-xO", "-f", path, "--", member]
    case TarGz => ["tar", "-xO", "-z", "-f", path, "--", member]
    case TarXz => ["tar", "-xO", "-J", "-f", path, "--", member]
    case TarBz2 => ["tar", "-xO", "-j", "-f", path, "--", member]
    case TarZst => ["tar", "-xO", "--zstd", "-f", path, "--", member]
  }

  function MemberPlan(fmt: ArchiveFormat, path: string, member: string, pattern: Option<string>, flags: seq<string>,
                      binary: bool): Plan {
    var args := MemberArgs(fmt, path, member);
    if binary then Plan([Stage(true, args, false)] + [Base64Stage()], false) else FilterPlan(args, pattern, flags)
  }

  lemma {:induction false} TarArgsGood(comp: seq<string>, path: string, member: string)
    requires AreArgs(Words(comp))
    ensures var args := [Text("tar"), Text("-xO")] + Words(comp) + [Text("-f"), Value("", path)]
                        + OptionItems("--", Some(member));
            GoodStage(Stage(true, args, false)) && Argv(args) == ["tar", "-xO"] + comp + ["-f", path, "--", member]
  {
    var a, b := [Text("tar"), Text("-xO")], [Text("-f"), Value("", path)];
    var c := OptionItems("--", Some(member));
    assert "" + path == path && "" + member == member;
    assert AreArgs(a) && Argv(a) == ["tar", "-xO"] && AreArgs(b) && Argv(b) == ["-f", path];
    assert AreArgs(c) && Argv(c) == ["--", member];
    assert Argv(Words(comp)) == comp;
    ArgvAppend(a, Words(comp));
    ArgvAppend(a + Words(comp), b);
    ArgvAppend(a + Words(comp) + b, c);
  }

  lemma {:induction false} CompressionGood(fmt: ArchiveFormat)
    ensures AreArgs(Words(TarCompression(fmt)))
  {}

  lemma {:induction false} MemberArgsGood(fmt: ArchiveFormat, path: string, member: string)
    ensures GoodStage(Stage(true, MemberArgs(fmt, path, member), false))
    ensures Argv(MemberArgs(fmt, path, member)) == MemberWords(fmt, path, member)
  {
    if fmt.Zip? {
      UnzipArgsGood(path, member);
    } else {
      CompressionGood(fmt);
      assert "-" + "xO" == "-xO";
      TarArgsGood(TarCompression(fmt), path, member);
      assert ["tar", "-xO"] + TarCompression(fmt) + ["-f", path, "--", member] == MemberWords(fmt, path, member);
    }
  }

  lemma {:induction false} UnzipArgsGood(path: string, member: string)
    ensures var args := [Text("unzip"), Text("-p"), Value("", path), Value("", member)];
            GoodStage(Stage(true, args, false)) && Argv(args) == ["unzip", "-p", path, member]
  {
    assert "" + path == path && "" + member == member;
  }

  lemma {:induction false} FilterOf(args: seq<Item>, p: string, flags: seq<string>)
    ensures FilterPlan(args, None, flags) == OneCommand(args)
    ensures Line(FilterPlan(args, Some(p), flags)) == Line(OneCommand(args)) + GrepTail(flags, p)
  {
    FilterText(args, None, flags);
    FilterText(args, Some(p), flags);
    assert Line(OneCommand(args)) == Show([Text("LC_ALL=C")] + args) + "" == Show([Text("LC_ALL=C")] + args);
  }

  method BuildArchiveRead(fmt: ArchiveFormat, path: string, member: string, pattern: Option<string>,
                          flags: seq<string>, binary: bool) returns (cmd: string)
    ensures cmd == Line(MemberPlan(fmt, path, member, pattern, flags, binary))
  {
    var args := MemberArgs(fmt, path, member);
    MemberArgsGood(fmt, path, member);
    var src;
    if fmt.Zip? {
      src := "LC_ALL=C " + "unzip" + " -p " + Quote(path) + " " + Quote(member);
      UnzipText(path, member);
    } else {
      src := TarCommand(fmt, "xO", path, Some(member));
    }
    assert src == Line(OneCommand(args));
    if binary {
      AddBase64Text([Stage(true, args, false)]);
      return src + " | base64 -w 0";
    }
    FilterOf(args, if pattern.Some? then pattern.value else "", flags);
    cmd := if pattern.None? then src else src + GrepTail(flags, pattern.value);
  }

  lemma {:induction false} UnzipText(path: string, member: string)
    ensures "LC_ALL=C " + "unzip" + " -p " + Quote(path) + " " + Quote(member)
         == Line(OneCommand([Text("unzip"), Text("-p"), Value("", path), Value("", member)]))
  {
    var args := [Text("unzip"), Text("-p"), Value("", path), Value("", member)];
    assert "" + Quote(path) == Quote(path) && "" + Quote(member) == Quote(member);
    var parts := ["LC_ALL=C", "unzip", "-p", Quote(path), Quote(member)];
    assert ShowItems([Text("LC_ALL=C")] + args) == parts;
    OneCommandText(args, parts);
    Join5("LC_ALL=C", "unzip", "-p", Quote(path), Quote(member));
    assert "LC_ALL=C" + " " == "LC_ALL=C " && " " + "-p" + " " == " -p ";
    RegroupUnzip("LC_ALL=C", "unzip", "-p", Quote(path), Quote(member));
  }

  lemma {:induction false} RegroupUnzip(a: string, b: string, c: string, d: string, e: string)
    ensures (a + " ") + b + (" " + c + " ") + d + " " + e == a + " " + b + " " + c + " " + d + " " + e
  {}

  /** Reading a member as text through grep: exactly grep's output, under the masked status. */
  lemma {:induction false} ArchiveMeaning(world: World, fmt: ArchiveFormat, path: string, member: string,
      p: string, flags: seq<string>)
    ensures var from := world(Invocation([Binding("LC_ALL", "C")], MemberWords(fmt, path, member), ""));
            var grep := world(Invocation([], ["grep"] + flags + ["-e", p, "--"], from.out));
            Run(world, Line(MemberPlan(fmt, path, member, Some(p), flags, false)))
            == Some(Effect(grep.out, MaskedStatus(grep.status)))
  {
    MemberArgsGood(fmt, path, member);
    FilterMeaning(world, MemberArgs(fmt, path, member), p, flags);
  }

  /** Reading a member as bytes: what base64 makes of the member. */
  lemma {:induction false} ArchiveBinaryMeaning(world: World, fmt: ArchiveFormat, path: string, member: string,
      pattern: Option<string>, flags: seq<string>)
    ensures var from := world(Invocation([Binding("LC_ALL", "C")], MemberWords(fmt, path, member), ""));
            var o := world(Invocation([], ["base64", "-w", "0"], from.out));
            Run(world, Line(MemberPlan(fmt, path, member, pattern, flags, true))) == Some(Effect(o.out, o.status))
  {
    var stages := [Stage(true, MemberArgs(fmt, path, member), false)];
    MemberArgsGood(fmt, path, member);
    AddBase64Runs(world, stages, "");
    RunLine(world, MemberPlan(fmt, path, member, pattern, flags, true));
  }

  // ----- stat

  datatype StatRequest = StatRequest(paths: seq<string>, dereference: bool, fileSystem: bool, terse: bool,
                                     format: Option<string>, cached: Option<string>)

  const CACHED_MODES := ["always", "never", "default"]

  predicate ValidStat(q: StatRequest) {
    !(q.terse && q.format.Some?) && (q.cached.Some? ==> q.cached.value in CACHED_MODES)
  }

  function CachedWord(cached: Option<string>): seq<string> {
    match cached case None => [] case Some(mode) => ["--cached=" + mode]
  }

  function StatGroups(q: StatRequest): seq<seq<Item>> {
    [Flag(q.dereference, "-L"), Flag(q.fileSystem, "-f"), Flag(q.terse, "-t"), Glued("--format=", q.format),
     Words(CachedWord(q.cached)), [Text("--")], Values(q.paths)]
  }

  function StatArgs(q: StatRequest): seq<Item> { [Text("stat")] + Concat(StatGroups(q)) }

  method BuildStat(q: StatRequest) returns (r: Result<string>)
    ensures r.Ok? <==>
            && !(q.terse && q.format.Some?)
            && (q.cached.Some? ==> q.cached.value == "always" || q.cached.value == "never" || q.cached.value == "default")
    ensures r.Ok? <==> ValidStat(q)
    ensures r.Raises? ==>
              r.error == ValueError(if q.terse && q.format.Some? then "terse and format are mutually exclusive"
                                    else "cached must be one of ['always', 'default', 'never']")
    ensures r.Ok? ==> r.value == Line(OneCommand(StatArgs(q)))
  {
    if q.terse && q.format.Some? {
      return Raises(ValueError("terse and format are mutually exclusive"));
    }
    if q.cached.Some? && q.cached.value !in CACHED_MODES {
      return Raises(ValueError("cached must be one of ['always', 'default', 'never']"));
    }
    var start := ["LC_ALL=C", "stat"];
    ghost var groups := StatGroups(q);
    StatShown(q);
    var parts := AddStatSwitches(q, start);
    if q.format.Some? { parts := parts + ["--format=" + Quote(q.format.value)]; }
    AddPart(start, groups, 3, GluedPart("--format=", q.format), parts);
    if q.cached.Some? { parts := parts + ["--cached=" + q.cached.value]; }
    AddPart(start, groups, 4, CachedWord(q.cached), parts);
    parts := parts + ["--"];
    AddPart(start, groups, 5, ["--"], parts);
    parts := parts + Quotes(q.paths);
    AddPart(start, groups, 6, Quotes(q.paths), parts);
    StatText(q, parts);
    r := Ok(Join(" ", parts));
  }

  /** The three switches. */
  method AddStatSwitches(q: StatRequest, start: seq<string>) returns (parts: seq<string>)
    ensures parts == PartsUpTo(start, StatGroups(q), 3)
  {
    ghost var groups := StatGroups(q);
    StatShown(q);
    parts := start;
    if q.dereference { parts := parts + ["-L"]; }
    AddPart(start, groups, 0, Switch(q.dereference, "-L"), parts);
    if q.fileSystem { parts := parts + ["-f"]; }
    AddPart(start, groups, 1, Switch(q.fileSystem, "-f"), parts);
    if q.terse { parts := parts + ["-t"]; }
    AddPart(start, groups, 2, Switch(q.terse, "-t"), parts);
  }

  lemma {:induction false} StatShown(q: StatRequest)
    ensures var g := StatGroups(q);
            && ShowItems(g[0]) == Switch(q.dereference, "-L") && ShowItems(g[1]) == Switch(q.fileSystem, "-f")
            && ShowItems(g[2]) == Switch(q.terse, "-t") && ShowItems(g[3]) == GluedPart("--format=", q.format)
            && ShowItems(g[4]) == CachedWord(q.cached) && ShowItems(g[5]) == ["--"]
            && ShowItems(g[6]) == Quotes(q.paths)
  {
    FlagShown(q.dereference, "-L");
    FlagShown(q.fileSystem, "-f");
    FlagShown(q.terse, "-t");
    GluedShown("--format=", q.format);
    ShowQuotes(q.paths);
  }

  lemma {:induction false} StatText(q: StatRequest, parts: seq<string>)
    requires parts == PartsUpTo(["LC_ALL=C", "stat"], StatGroups(q), 7)
    ensures Line(OneCommand(StatArgs(q))) == Join(" ", parts)
  {
    assert ShowItems([Text("LC_ALL=C")] + [Text("stat")]) == ["LC_ALL=C", "stat"];
    GroupsText([Text("stat")], StatGroups(q), ["LC_ALL=C", "stat"], parts);
  }

  function StatWordGroups(q: StatRequest): seq<seq<string>> {
    [Switch(q.dereference, "-L"), Switch(q.fileSystem, "-f"), Switch(q.terse, "-t"),
     GluedWord("--format=", q.format), if q.cached.Some? then ["--cached=" + q.cached.value] else [], ["--"], q.paths]
  }

  /** The words stat is meant to receive; every path stands after the end of the options. */
  function StatWords(q: StatRequest): seq<string> { ["stat"] + Concat(StatWordGroups(q)) }

  lemma {:induction false} CachedGood(cached: Option<string>)
    requires cached.Some? ==> cached.value in CACHED_MODES
    ensures AreArgs(Words(CachedWord(cached))) && Argv(Words(CachedWord(cached))) == CachedWord(cached)
  {
    if cached.Some? {
      assert AllPlain(cached.value) && AllPlain("--cached=");
    }
  }

  lemma {:induction false} StatGroupsGood(q: StatRequest)
    requires ValidStat(q)
    ensures AreArgs(Concat(StatGroups(q))) && Argv(Concat(StatGroups(q))) == Concat(StatWordGroups(q))
  {
    StatSwitches(q);
    CachedGood(q.cached);
    ArgvValues(q.paths);
    forall i | 0 <= i < 7 ensures AreArgs(StatGroups(q)[i]) && Argv(StatGroups(q)[i]) == StatWordGroups(q)[i] {
      assert i in {0, 1, 2, 3} || i == 4 || i == 5 || i == 6;
    }
    GroupsArgv(StatGroups(q), StatWordGroups(q));
  }

  lemma {:induction false} StatSwitches(q: StatRequest)
    ensures forall i | i in {0, 1, 2, 3} :: AreArgs(StatGroups(q)[i]) && Argv(StatGroups(q)[i]) == StatWordGroups(q)[i]
    ensures AreArgs([Text("--")]) && Argv([Text("--")]) == ["--"]
  {
    StatFlagsPlain();
    FlagShown(q.dereference, "-L");
    FlagShown(q.fileSystem, "-f");
    FlagShown(q.terse, "-t");
    GluedShown("--format=", q.format);
  }

  lemma {:induction false} StatFlagsPlain()
    ensures AllPlain("-L") && AllPlain("-f") && AllPlain("-t") && AllPlain("--format=") && AllPlain("--")
  {}

  lemma {:induction false} StatArgsGood(q: StatRequest)
    requires ValidStat(q)
    ensures GoodStage(Stage(true, StatArgs(q), false)) && Argv(StatArgs(q)) == StatWords(q)
  {
    StatGroupsGood(q);
    assert AreArgs([Text("stat")]) && Argv([Text("stat")]) == ["stat"];
    ArgvAppend([Text("stat")], Concat(StatGroups(q)));
  }

  /** What stat receives, for all formats and paths: each value stays in its own word. */
  lemma {:induction false} StatRoundTrip(q: StatRequest)
    requires ValidStat(q)
    ensures ArgvUnderC(Line(OneCommand(StatArgs(q)))) == Some(StatWords(q))
  {
    StatArgsGood(q);
    ArgvOfLine(StatArgs(q));
  }

  /** The words of a listing: tar's operation `t` and no member. */
  function ListWords(fmt: ArchiveFormat, path: string): seq<string> {
    match fmt
    case TarGz => ["tar", "-t", "-z", "-f", path]
    case TarXz => ["tar", "-t", "-J", "-f", path]
    case TarBz2 => ["tar", "-t", "-j", "-f", path]
    case TarZst => ["tar", "-t", "--zstd", "-f", path]
    case _ => ["tar", "-t", "-f", path]
  }

  lemma {:induction false} ListRoundTrip(fmt: ArchiveFormat, path: string)
    ensures ArgvUnderC(Line(OneCommand(TarArgs(fmt, "t", path, None)))) == Some(ListWords(fmt, path))
  {
    TarListingGood(fmt, path);
    ArgvOfLine(TarArgs(fmt, "t", path, None));
    assert ["tar", "-t"] + TarCompression(fmt) + ["-f", path] == ListWords(fmt, path);
  }

  lemma {:induction false} TarListingGood(fmt: ArchiveFormat, path: string)
    ensures GoodStage(Stage(true, TarArgs(fmt, "t", path, None), false))
    ensures Argv(TarArgs(fmt, "t", path, None)) == ["tar", "-t"] + TarCompression(fmt) + ["-f", path]
  {
    var a, b := [Text("tar"), Text("-t")], [Text("-f"), Value("", path)];
    var comp := TarCompression(fmt);
    CompressionGood(fmt);
    assert "-" + "t" == "-t" && "" + path == path;
    assert AreArgs(a) && Argv(a) == ["tar", "-t"] && AreArgs(b) && Argv(b) == ["-f", path];
    assert Argv(Words(comp)) == comp;
    ArgvAppend(a, Words(comp));
    ArgvAppend(a + Words(comp), b);
    assert TarArgs(fmt, "t", path, None) == a + Words(comp) + b;
  }
}
