/**
 The command lines the builders mean: a pipeline of commands, possibly with grep's "nothing
 matched" status masked. Printing a plan and letting the shell parse and run it is the same as
 running the plan's commands one into the next.
 */
module Plans {
  import opened Wrappers
  import opened Text
  import opened Shell
  import opened Printing

  /** One command: run under LC_ALL=C or not, its words, and whether stderr joins stdout. */
  datatype Stage = Stage(locale: bool, args: seq<Item>, merge: bool)

  /** `masked` appends `|| [ $? -eq 1 ]`. */
  datatype Plan = Plan(stages: seq<Stage>, masked: bool)

  // ----- printing

  function StageItems(st: Stage): seq<Item> {
    (if st.locale then [Text("LC_ALL=C")] else []) + st.args + (if st.merge then [ErrToOut] else [])
  }

  function PipeItems(stages: seq<Stage>): seq<Item> {
    if stages == [] then []
    else if |stages| == 1 then StageItems(stages[0])
    else StageItems(stages[0]) + [Symbol("|")] + PipeItems(stages[1..])
  }

  const TEST: seq<Item> := [OpenTest, LastStatus, Text("-eq"), Text("1"), Text("]")]

  const MASK: seq<Item> := [Symbol("||")] + TEST

  function PlanItems(plan: Plan): seq<Item> {
    PipeItems(plan.stages) + if plan.masked then MASK else []
  }

  function Line(plan: Plan): string { Show(PlanItems(plan)) }

  predicate IsArg(item: Item) { (item.Text? || item.Value?) && GoodItem(item) }

  predicate AreArgs(args: seq<Item>) { forall i | 0 <= i < |args| :: IsArg(args[i]) }

  /** A word that names a utility; it is no assignment. */
  predicate IsUtility(item: Item) { item.Text? && item.text != "" && AllSafe(item.text) && '=' !in item.text }

  /** Where an assignment stands in front, the shell does not look for reserved words. */
  predicate GoodStage(st: Stage) {
    st.args != [] && AreArgs(st.args) && IsUtility(st.args[0]) && (!st.locale ==> st.args[0].text !in RESERVED)
  }

  predicate GoodStages(stages: seq<Stage>) { forall i | 0 <= i < |stages| :: GoodStage(stages[i]) }

  predicate GoodPlan(plan: Plan) {
    plan.stages != [] && GoodStages(plan.stages)
  }

  // ----- meaning

  function ArgText(item: Item): string
    requires IsArg(item)
  {
    if item.Text? then item.text else item.prefix + item.value
  }

  /** The argument vector a stage means. */
  function Argv(args: seq<Item>): (r: seq<string>)
    requires AreArgs(args)
    ensures |r| == |args|
  {
    seq(|args|, i requires 0 <= i < |args| => ArgText(args[i]))
  }

  function Call(st: Stage, stdin: string): Invocation
    requires AreArgs(st.args)
  {
    Invocation(if st.locale then [Binding("LC_ALL", "C")] else [], Argv(st.args), stdin)
  }

  function RunStage(world: World, st: Stage, stdin: string): Effect
    requires AreArgs(st.args)
  {
    var o := world(Call(st, stdin));
    Effect(if st.merge then o.mixed else o.out, o.status)
  }

  function RunStages(world: World, stages: seq<Stage>, stdin: string): Effect
    requires stages != [] && GoodStages(stages)
  {
    var e := RunStage(world, stages[0], stdin);
    if |stages| == 1 then e else RunStages(world, stages[1..], e.out)
  }

  /** With the mask, status 1 becomes 0 and every other failure becomes 1. */
  function RunPlan(world: World, plan: Plan): Effect
    requires GoodPlan(plan)
  {
    var e := RunStages(world, plan.stages, "");
    if plan.masked && e.status != 0 then Effect(e.out, if e.status == 1 then 0 else 1) else e
  }

  // ----- parsing undoes printing

  function ArgWord(item: Item): Word
    requires IsArg(item)
  {
    if item.Text? then Bares(item.text) else Bares(item.prefix) + QuoteWord(item.value)
  }

  function ArgWords(args: seq<Item>): (r: seq<Word>)
    requires AreArgs(args)
    ensures |r| == |args|
  {
    seq(|args|, i requires 0 <= i < |args| => ArgWord(args[i]))
  }

  function StageTree(st: Stage): Simple
    requires AreArgs(st.args)
  {
    Simple(if st.locale then [Assign("LC_ALL", Bares("C"))] else [], ArgWords(st.args),
           if st.merge then [Redirect("2", ">&", [Bare('1')])] else [])
  }

  function StageTrees(stages: seq<Stage>): (r: seq<Simple>)
    requires GoodStages(stages)
    ensures |r| == |stages|
  {
    seq(|stages|, i requires 0 <= i < |stages| => StageTree(stages[i]))
  }

  function MaskTree(): Link {
    Link(OrIf, [Simple([], [[Bare('[')], [Status], Bares("-eq"), Bares("1"), Bares("]")], [])])
  }

  function PlanTree(plan: Plan): AndOr
    requires GoodPlan(plan)
  {
    AndOr(StageTrees(plan.stages), if plan.masked then [MaskTree()] else [])
  }

  lemma {:induction false} FeedAppend(a: seq<Item>, b: seq<Item>, rest: TokenList)
    ensures FeedAll(a + b, rest) == FeedAll(a, FeedAll(b, rest))
  {
    if a == [] {
      assert a + b == b;
    } else {
      assert (a + b)[1..] == a[1..] + b;
      FeedAppend(a[1..], b, rest);
    }
  }

  lemma {:induction false} NamesEnd(w: string, k: nat)
    requires k <= |w| && AllSafe(w) && '=' !in w
    ensures NameLength(Bares(w)[k..]) < |w| - k ==> Bares(w)[k + NameLength(Bares(w)[k..])] != Bare('=')
  {
    assert forall i | 0 <= i < |w| :: Bares(w)[i] == Bare(w[i]) && w[i] in w;
  }

  lemma {:induction false} UtilityIsNotReserved(name: string)
    requires name !in RESERVED
    ensures !IsReserved(Bares(name))
  {
    ExpandQuoteds(name, 0);
  }

  lemma {:induction false} UtilityIsNotAssignment(name: string)
    requires AllSafe(name) && '=' !in name
    ensures !IsAssignment(Bares(name))
  {
    NamesEnd(name, 0);
    assert Bares(name)[0..] == Bares(name);
  }

  lemma {:induction false} ParseArgs(args: seq<Item>, rest: TokenList, acc: Simple)
    requires AreArgs(args) && acc.words != []
    ensures ParseSimple(FeedAll(args, rest), acc) == ParseSimple(rest, acc.(words := acc.words + ArgWords(args)))
  {
    if args == [] {
      assert acc.words + ArgWords(args) == acc.words;
    } else {
      var begun := acc.(words := acc.words + [ArgWord(args[0])]);
      assert ParseSimple(FeedAll(args, rest), acc) == ParseSimple(FeedAll(args[1..], rest), begun);
      ParseArgs(args[1..], rest, begun);
      assert begun.words + ArgWords(args[1..]) == acc.words + ArgWords(args);
    }
  }

  /** What ends a command in a printed line. */
  predicate EndsStage(rest: TokenList) {
    rest.End? || rest.head == Operator("|") || rest.head == Operator("||")
  }

  lemma {:induction false} LocaleIsAssignment()
    ensures IsAssignment(Bares("LC_ALL=C")) && NameLength(Bares("LC_ALL=C")) == 6
    ensures Expand(Bares("LC_ALL=C")[..6], 0) == "LC_ALL" && Bares("LC_ALL=C")[7..] == Bares("C")
  {
    var w := Bares("LC_ALL=C");
    assert NameLength(w[6..]) == 0;
    assert NameLength(w[5..]) == 1 && NameLength(w[4..]) == 2 && NameLength(w[3..]) == 3;
    assert NameLength(w[2..]) == 4 && NameLength(w[1..]) == 5;
    assert w[..6] == Bares("LC_ALL");
    ExpandQuoteds("LC_ALL", 0);
  }

  function Merge(merge: bool, rest: TokenList): TokenList { if merge then Feed(ErrToOut, rest) else rest }

  lemma {:induction false} ParseMerge(st: Stage, rest: TokenList, acc: Simple)
    requires AreArgs(st.args) && EndsStage(rest) && acc.words != [] && acc.redirects == []
    ensures ParseSimple(Merge(st.merge, rest), acc) == Parsed(acc.(redirects := StageTree(st).redirects), rest)
  {
    var r := Redirect("2", ">&", [Bare('1')]);
    if st.merge {
      assert acc.redirects + [r] == [r];
      assert ParseSimple(Feed(ErrToOut, rest), acc) == ParseSimple(rest, acc.(redirects := [r]));
    }
  }

  lemma {:induction false} ParseWords(st: Stage, rest: TokenList, acc: Simple)
    requires GoodStage(st) && EndsStage(rest)
    requires acc.words == [] && acc.redirects == [] && (st.locale <==> acc.assigns != [])
    ensures ParseSimple(FeedAll(st.args, Merge(st.merge, rest)), acc)
         == Parsed(StageTree(st).(assigns := acc.assigns), rest)
  {
    var tail := Merge(st.merge, rest);
    var w := ArgWord(st.args[0]);
    if !st.locale { UtilityIsNotReserved(st.args[0].text); }
    UtilityIsNotAssignment(st.args[0].text);
    assert acc.words + [w] == [w];
    assert ParseSimple(FeedAll(st.args, tail), acc) == ParseSimple(FeedAll(st.args[1..], tail), acc.(words := [w]));
    ParseArgs(st.args[1..], tail, acc.(words := [w]));
    assert [w] + ArgWords(st.args[1..]) == ArgWords(st.args);
    ParseMerge(st, rest, acc.(words := ArgWords(st.args)));
  }

  lemma {:induction false} StageFeed(st: Stage, rest: TokenList)
    requires AreArgs(st.args)
    ensures FeedAll(StageItems(st), rest)
         == var body := FeedAll(st.args, Merge(st.merge, rest));
            if st.locale then Feed(Text("LC_ALL=C"), body) else body
  {
    var head := if st.locale then [Text("LC_ALL=C")] else [];
    var mark := if st.merge then [ErrToOut] else [];
    FeedAppend(head + st.args, mark, rest);
    FeedAppend(head, st.args, FeedAll(mark, rest));
    assert st.locale ==> head[1..] == [];
    assert st.merge ==> mark[1..] == [];
  }

  lemma {:induction false} ParseAssigned(w: Word, st: Stage, rest: TokenList)
    requires IsAssignment(w) && GoodStage(st) && st.locale && EndsStage(rest)
    ensures var n := NameLength(w);
            ParseSimple(More(WordToken(w), FeedAll(st.args, Merge(st.merge, rest))), Empty())
            == Parsed(StageTree(st).(assigns := [Assign(Expand(w[..n], 0), w[n + 1..])]), rest)
  {
    var n := NameLength(w);
    var acc := Simple([Assign(Expand(w[..n], 0), w[n + 1..])], [], []);
    assert Empty().assigns + acc.assigns == acc.assigns;
    ParseWords(st, rest, acc);
  }

  lemma {:induction false} ParseStage(st: Stage, rest: TokenList)
    requires GoodStage(st) && EndsStage(rest)
    ensures ParseSimple(FeedAll(StageItems(st), rest), Empty()) == Parsed(StageTree(st), rest)
  {
    StageFeed(st, rest);
    if st.locale {
      LocaleIsAssignment();
      ParseAssigned(Bares("LC_ALL=C"), st, rest);
    } else {
      ParseWords(st, rest, Empty());
    }
  }

  lemma {:induction false} PipeFeed(stages: seq<Stage>, rest: TokenList)
    requires |stages| > 1
    ensures FeedAll(PipeItems(stages), rest)
         == FeedAll(StageItems(stages[0]), More(Operator("|"), FeedAll(PipeItems(stages[1..]), rest)))
  {
    var bar := [Symbol("|")];
    FeedAppend(StageItems(stages[0]) + bar, PipeItems(stages[1..]), rest);
    FeedAppend(StageItems(stages[0]), bar, FeedAll(PipeItems(stages[1..]), rest));
    assert bar[1..] == [];
  }

  lemma {:induction false} ParseBar(ts: TokenList, s: Simple, later: TokenList, p: Pipeline, rest: TokenList)
    requires ParseSimple(ts, Empty()) == Parsed(s, More(Operator("|"), later))
    requires ParsePipeline(later) == Parsed(p, rest)
    ensures ParsePipeline(ts) == Parsed([s] + p, rest)
  {}

  lemma {:induction false} ParseLast(st: Stage, rest: TokenList)
    requires GoodStage(st) && (rest.End? || rest.head == Operator("||"))
    ensures ParsePipeline(FeedAll(StageItems(st), rest)) == Parsed([StageTree(st)], rest)
  {
    ParseStage(st, rest);
  }

  lemma {:induction false} ParsePipe(stages: seq<Stage>, rest: TokenList)
    requires stages != [] && GoodStages(stages)
    requires rest.End? || rest.head == Operator("||")
    ensures ParsePipeline(FeedAll(PipeItems(stages), rest)) == Parsed(StageTrees(stages), rest)
  {
    if |stages| == 1 {
      ParseLast(stages[0], rest);
      assert StageTrees(stages) == [StageTree(stages[0])];
    } else {
      var later := FeedAll(PipeItems(stages[1..]), rest);
      PipeFeed(stages, rest);
      ParseStage(stages[0], More(Operator("|"), later));
      ParsePipe(stages[1..], rest);
      ParseBar(FeedAll(StageItems(stages[0]), More(Operator("|"), later)), StageTree(stages[0]), later,
               StageTrees(stages[1..]), rest);
      StageTreesCons(stages);
    }
  }

  lemma {:induction false} StageTreesCons(stages: seq<Stage>)
    requires stages != [] && GoodStages(stages)
    ensures GoodStages(stages[1..]) && StageTrees(stages) == [StageTree(stages[0])] + StageTrees(stages[1..])
  {}

  function WordList(words: seq<Word>): TokenList {
    if words == [] then End else More(WordToken(words[0]), WordList(words[1..]))
  }

  lemma {:induction false} FeedWords(items: seq<Item>, words: seq<Word>)
    requires |items| == |words|
    requires forall i | 0 <= i < |items| :: Feed(items[i], End) == More(WordToken(words[i]), End)
    ensures FeedAll(items, End) == WordList(words)
  {
    if items != [] { FeedWords(items[1..], words[1..]); }
  }

  lemma {:induction false} ParsePlainWords(words: seq<Word>, acc: Simple)
    requires acc.words != []
    ensures ParseSimple(WordList(words), acc) == Parsed(acc.(words := acc.words + words), End)
  {
    if words == [] {
      assert acc.words + words == acc.words;
    } else {
      ParsePlainWords(words[1..], acc.(words := acc.words + [words[0]]));
      assert acc.words + [words[0]] + words[1..] == acc.words + words;
    }
  }

  lemma {:induction false} ParseTest(words: seq<Word>)
    requires words != [] && words[0] == [Bare('[')]
    ensures ParsePipeline(WordList(words)) == Parsed([Simple([], words, [])], End)
  {
    assert words[0][1..] == [] && Expand(words[0], 0) == "[" + "" == "[";
    assert !IsReserved(words[0]) && !IsAssignment(words[0]);
    assert Empty().words + [words[0]] == [words[0]];
    ParsePlainWords(words[1..], Empty().(words := [words[0]]));
    assert [words[0]] + words[1..] == words;
    assert ParseSimple(WordList(words), Empty()) == Parsed(Simple([], words, []), End);
  }

  lemma {:induction false} ParseMask()
    ensures FeedAll(MASK, End).More? && FeedAll(MASK, End).head == Operator("||")
    ensures ParseLinks(FeedAll(MASK, End)) == Some([MaskTree()])
  {
    var words := MaskTree().pipeline[0].words;
    assert MASK[1..] == TEST;
    FeedWords(TEST, words);
    ParseTest(words);
    assert [MaskTree()] + [] == [MaskTree()];
    assert ParseLinks(End) == Some([]);
  }

  lemma {:induction false} MaskGood()
    ensures GoodItems(MASK)
  {
    assert forall i | 0 <= i < |TEST| :: GoodItem(TEST[i]);
  }

  lemma {:induction false} StageItemsGood(st: Stage)
    requires GoodStage(st)
    ensures GoodItems(StageItems(st)) && StageItems(st) != []
  {
    LocaleIsGood();
  }

  lemma {:induction false} LocaleIsGood()
    ensures GoodItem(Text("LC_ALL=C"))
  {}

  lemma {:induction false} PipeItemsGood(stages: seq<Stage>)
    requires GoodStages(stages)
    ensures GoodItems(PipeItems(stages))
  {
    if stages != [] {
      StageItemsGood(stages[0]);
      PipeItemsGood(stages[1..]);
    }
  }

  /** Parsing a printed plan gives the plan's own tree, for all values in it. */
  lemma {:induction false} ParseLine(plan: Plan)
    requires GoodPlan(plan)
    ensures Parse(Line(plan)) == Some(PlanTree(plan))
  {
    PipeItemsGood(plan.stages);
    var mask: seq<Item> := if plan.masked then MASK else [];
    if plan.masked {
      MaskGood();
      ParseMask();
    }
    ParsePipe(plan.stages, FeedAll(mask, End));
    FeedAppend(PipeItems(plan.stages), mask, End);
    TokensOfShow(PipeItems(plan.stages) + mask);
  }

  // ----- running the parsed line

  lemma {:induction false} ExpandArg(item: Item, last: nat)
    requires IsArg(item)
    ensures Expand(ArgWord(item), last) == ArgText(item)
  {
    if item.Text? {
      ExpandQuoteds(item.text, last);
    } else {
      ExpandQuoteds(item.prefix, last);
      ExpandQuoteds(item.value, last);
      ExpandAppend(Bares(item.prefix), QuoteWord(item.value), last);
    }
  }

  lemma {:induction false} ExpandArgs(args: seq<Item>, last: nat)
    requires AreArgs(args)
    ensures ExpandAll(ArgWords(args), last) == Argv(args)
  {
    forall i | 0 <= i < |args| ensures ExpandAll(ArgWords(args), last)[i] == Argv(args)[i] {
      ExpandArg(args[i], last);
    }
  }

  lemma {:induction false} RunStageTree(world: World, st: Stage, stdin: string, last: nat)
    requires GoodStage(st)
    ensures RunSimple(world, StageTree(st), stdin, last) == Some(RunStage(world, st, stdin))
  {
    ExpandArgs(st.args, last);
    assert IsSafe(st.args[0].text[0]);
    ExpandQuoteds("C", last);
    assert Bindings(StageTree(st).assigns, last) == Call(st, stdin).env;
    assert Argv(st.args)[0] == st.args[0].text;
  }

  lemma {:induction false} RunStageTrees(world: World, stages: seq<Stage>, stdin: string, last: nat)
    requires stages != [] && GoodStages(stages)
    ensures RunPipeline(world, StageTrees(stages), stdin, last) == Some(RunStages(world, stages, stdin))
  {
    RunStageTree(world, stages[0], stdin, last);
    if |stages| > 1 {
      assert StageTrees(stages)[1..] == StageTrees(stages[1..]);
      RunStageTrees(world, stages[1..], RunStage(world, stages[0], stdin).out, last);
    }
  }

  /** `[ $? -eq 1 ]` succeeds exactly when the status so far is 1. */
  lemma {:induction false} RunMask(world: World, last: nat)
    ensures RunPipeline(world, MaskTree().pipeline, "", last) == Some(Effect("", if last == 1 then 0 else 1))
  {
    var words := MaskTree().pipeline[0].words;
    var argv := ExpandAll(words, last);
    assert [Bare('[')][1..] == [] && [Status][1..] == [];
    assert Expand(words[0], last) == "[" + "" == "[";
    assert Expand(words[1], last) == NatStr(last) + "" == NatStr(last);
    ExpandQuoteds("-eq", last);
    ExpandQuoteds("1", last);
    ExpandQuoteds("]", last);
    assert argv == ["[", NatStr(last), "-eq", "1", "]"];
    PyIntOfIntStr(last);
    PyIntOfIntStr(1);
    assert IntStr(1) == "1";
  }

  lemma {:induction false} RunMaskLink(world: World, e: Effect)
    ensures RunLinks(world, [MaskTree()], e)
         == Some(if e.status == 0 then e else Effect(e.out, if e.status == 1 then 0 else 1))
  {
    assert [MaskTree()][1..] == [];
    if e.status != 0 {
      RunMask(world, e.status);
      assert e.out + "" == e.out;
    }
  }

  /** The shell runs a printed plan as the plan's commands, each fed by the one before. */
  lemma {:induction false} RunLine(world: World, plan: Plan)
    requires GoodPlan(plan)
    ensures Run(world, Line(plan)) == Some(RunPlan(world, plan))
  {
    ParseLine(plan);
    RunStageTrees(world, plan.stages, "", 0);
    if plan.masked { RunMaskLink(world, RunStages(world, plan.stages, "")); }
  }

  /** A plan of one command under LC_ALL=C reads back as exactly its argument vector. */
  lemma {:induction false} ArgvOfLine(args: seq<Item>)
    requires GoodStage(Stage(true, args, false))
    ensures ArgvUnderC(Line(Plan([Stage(true, args, false)], false))) == Some(Argv(args))
  {
    var st := Stage(true, args, false);
    ParseLine(Plan([st], false));
    ExpandArgs(args, 0);
    ExpandQuoteds("C", 0);
    assert Bindings(StageTree(st).assigns, 0) == [Binding("LC_ALL", "C")];
  }
}
