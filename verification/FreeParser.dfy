/**
 The parser of free's output (linux_info_mcp/tools/_parsers.py, parse_free): a line loop in which
 `cur` aliases the last record of the list under construction.
 */
module FreeParser {
  import opened Wrappers
  import opened Text

  datatype Mem =
    | Wide(total: int, used: int, free: int, shared: int, buffers: int, cache: int, available: int)
    | Usual(total: int, used: int, free: int, shared: int, buffCache: int, available: int)
    | Short(total: int, used: int, free: int)

  datatype Swap = Swap(total: int, used: int, free: int)

  /** The value of a sample record. */
  datatype Row = Row(mem: Option<Mem>, swap: Option<Swap>)

  // ----- one line

  /** int() of each text, None when one of them is refused. */
  function Ints(texts: seq<string>): (r: Option<seq<int>>)
    ensures r.Some? ==> |r.value| == |texts|
  {
    if texts == [] then Some([])
    else match (PyInt(texts[0]), Ints(texts[1..]))
      case (Some(n), Some(ns)) => Some([n] + ns)
      case _ => None
  }

  function ParseMem(vals: seq<string>): Option<Mem> {
    if |vals| >= 7 then
      match Ints(vals[..7])
      case None => None
      case Some(n) => Some(Wide(n[0], n[1], n[2], n[3], n[4], n[5], n[6]))
    else if |vals| >= 6 then
      match Ints(vals[..6])
      case None => None
      case Some(n) => Some(Usual(n[0], n[1], n[2], n[3], n[4], n[5]))
    else if |vals| >= 3 then
      match Ints(vals[..3])
      case None => None
      case Some(n) => Some(Short(n[0], n[1], n[2]))
    else None
  }

  function ParseSwap(vals: seq<string>): Option<Swap> {
    if |vals| >= 3 then
      match Ints(vals[..3])
      case None => None
      case Some(n) => Some(Swap(n[0], n[1], n[2]))
    else None
  }

  /** What a line says: the start of a sample, an unreadable start, the swap of a sample, or nothing. */
  datatype Event = Begins(mem: Mem) | Unreadable | HasSwap(swap: Swap) | Noise

  /** The name before the colon, lower-cased, and the columns after it; None for a line to skip. */
  function Fields(raw: string): Option<(string, seq<string>)> {
    var line := Strip(raw);
    var colon := Find(line, ':');
    if colon == |line| then None else Some((Lower(Strip(line[..colon])), Split(line[colon + 1..])))
  }

  function Classify(raw: string): Event {
    match Fields(raw)
    case None => Noise
    case Some((name, vals)) =>
      if name == "mem" then
        match ParseMem(vals)
        case None => Unreadable
        case Some(mem) => Begins(mem)
      else if name == "swap" then
        match ParseSwap(vals)
        case None => Noise
        case Some(swap) => HasSwap(swap)
      else Noise
  }

  function Events(lines: seq<string>): (es: seq<Event>)
    ensures |es| == |lines|
  {
    seq(|lines|, i requires 0 <= i < |lines| => Classify(lines[i]))
  }

  // ----- the loop

  /** `open` tells whether the last row still takes a swap line. */
  datatype Scan = Scan(rows: seq<Row>, open: bool)

  function Step(s: Scan, e: Event): Scan {
    match e
    case Begins(mem) => Scan(s.rows + [Row(Some(mem), None)], true)
    case Unreadable => s.(open := false)
    case HasSwap(swap) =>
      if s.open && s.rows != [] then s.(rows := s.rows[|s.rows| - 1 := s.rows[|s.rows| - 1].(swap := Some(swap))])
      else Scan(s.rows + [Row(None, Some(swap))], true)
    case Noise => s
  }

  /** The scan of the first lines, last line first. */
  function ScanOf(es: seq<Event>): Scan {
    if es == [] then Scan([], false) else Step(ScanOf(es[..|es| - 1]), es[|es| - 1])
  }

  function RowsOfReport(stdout: string): seq<Row> { ScanOf(Events(SplitLines(stdout))).rows }

  lemma {:induction false} ScanOfNext(es: seq<Event>, i: nat)
    requires i < |es|
    ensures ScanOf(es[..i + 1]) == Step(ScanOf(es[..i]), es[i])
  {
    assert es[..i + 1][..i] == es[..i];
  }

  /** A record that the loop keeps updating after it has been appended. */
  class Sample {
    var mem: Option<Mem>
    var swap: Option<Swap>

    constructor (mem: Option<Mem>)
      ensures this.mem == mem && swap == None
    {
      this.mem := mem;
      swap := None;
    }

    function Value(): Row
      reads this
    {
      Row(mem, swap)
    }
  }

  function Values(samples: seq<Sample>): (rows: seq<Row>)
    reads samples
    ensures |rows| == |samples|
    ensures forall i | 0 <= i < |samples| :: rows[i] == samples[i].Value()
  {
    seq(|samples|, i requires 0 <= i < |samples| reads samples => samples[i].Value())
  }

  predicate Distinct(samples: seq<Sample>) { forall i, j | 0 <= i < j < |samples| :: samples[i] != samples[j] }

  /** A new record, appended; `cur` is the very object now last in the list. */
  method Append(samples: seq<Sample>, mem: Option<Mem>) returns (cur: Sample, longer: seq<Sample>)
    requires Distinct(samples)
    ensures fresh(cur) && longer == samples + [cur] && Distinct(longer)
    ensures Values(longer) == old(Values(samples)) + [Row(mem, None)]
  {
    cur := new Sample(mem);
    longer := samples + [cur];
  }

  /** Setting the swap of the last record changes its row and no other. */
  method SetSwap(samples: seq<Sample>, cur: Sample, swap: Swap)
    requires Distinct(samples) && samples != [] && cur == samples[|samples| - 1]
    modifies cur
    ensures Values(samples) == old(Values(samples))[|samples| - 1 := old(cur.Value()).(swap := Some(swap))]
  {
    cur.swap := Some(swap);
  }

  /** `cur` is null or the very object last in `samples`. */
  predicate Aliased(samples: seq<Sample>, cur: Sample?) {
    Distinct(samples) && (cur == null || (samples != [] && cur == samples[|samples| - 1]))
  }

  function ScanState(samples: seq<Sample>, cur: Sample?): Scan
    reads samples
  {
    Scan(Values(samples), cur != null)
  }

  /** The body of the loop. */
  method TakeLine(samples: seq<Sample>, cur: Sample?, raw: string) returns (longer: seq<Sample>, now: Sample?)
    requires Aliased(samples, cur)
    modifies if cur == null then {} else {cur}
    ensures Aliased(longer, now)
    ensures longer == samples || (now != null && fresh(now) && longer == samples + [now])
    ensures ScanState(longer, now) == Step(old(ScanState(samples, cur)), Classify(raw))
  {
    longer, now := samples, cur;
    var fields := Fields(raw);
    if fields.None? {
      return;
    }
    var (name, vals) := fields.value;
    if name == "mem" {
      var mem := ParseMem(vals);
      if mem.None? {
        now := null;
        return;
      }
      now, longer := Append(samples, mem);
    } else if name == "swap" {
      var swap := ParseSwap(vals);
      if swap.None? {
        return;
      }
      if now == null {
        now, longer := Append(samples, None);
      }
      SetSwap(longer, now, swap.value);
    }
  }

  method ParseFree(stdout: string) returns (samples: seq<Sample>)
    ensures fresh(samples) && Distinct(samples)
    ensures Values(samples) == RowsOfReport(stdout)
  {
    samples := [];
    var cur: Sample? := null;
    var lines := SplitLines(stdout);
    for i := 0 to |lines|
      invariant fresh(samples) && Aliased(samples, cur)
      invariant ScanState(samples, cur) == ScanOf(Events(lines)[..i])
    {
      ScanOfNext(Events(lines), i);
      samples, cur := TakeLine(samples, cur, lines[i]);
    }
    assert Events(lines)[..|lines|] == Events(lines);
  }

  // ----- what the rows are

  /** The events that matter, in order. */
  function Meaningful(es: seq<Event>): seq<Event> {
    if es == [] then []
    else Meaningful(es[..|es| - 1]) + if es[|es| - 1].Noise? then [] else [es[|es| - 1]]
  }

  lemma {:induction false} NoiseIsSkipped(es: seq<Event>)
    ensures ScanOf(Meaningful(es)) == ScanOf(es)
  {
    if es != [] {
      var front := es[..|es| - 1];
      NoiseIsSkipped(front);
      if es[|es| - 1].Noise? {
        assert Meaningful(es) == Meaningful(front);
      } else {
        assert Meaningful(es)[..|Meaningful(es)| - 1] == Meaningful(front);
      }
    }
  }

  /**
   What a report says of one row: starts that are refused, then a readable start or none, then the swap
   lines of the sample, of which the last counts.
   */
  datatype Block = Block(refused: nat, mem: Option<Mem>, swaps: seq<Swap>)

  function BlockRow(b: Block): Row { Row(b.mem, if b.swaps == [] then None else Some(b.swaps[|b.swaps| - 1])) }

  function Refused(n: nat): seq<Event> { if n == 0 then [] else Refused(n - 1) + [Unreadable] }

  function SwapEvents(swaps: seq<Swap>): seq<Event> {
    if swaps == [] then [] else SwapEvents(swaps[..|swaps| - 1]) + [HasSwap(swaps[|swaps| - 1])]
  }

  function StartEvents(b: Block): seq<Event> {
    Refused(b.refused) + match b.mem case Some(mem) => [Begins(mem)] case None => []
  }

  function BlockEvents(b: Block): seq<Event> { StartEvents(b) + SwapEvents(b.swaps) }

  /** Only the first row of a report needs no start at all. */
  predicate WellFormed(blocks: seq<Block>) {
    forall i | 0 <= i < |blocks| ::
      && (blocks[i].mem.Some? || blocks[i].swaps != [])
      && (blocks[i].mem.None? ==> i == 0 || blocks[i].refused > 0)
  }

  function BlocksEvents(blocks: seq<Block>): seq<Event> {
    if blocks == [] then [] else BlocksEvents(blocks[..|blocks| - 1]) + BlockEvents(blocks[|blocks| - 1])
  }

  function BlockRows(blocks: seq<Block>): (rows: seq<Row>)
    ensures |rows| == |blocks|
  {
    seq(|blocks|, i requires 0 <= i < |blocks| => BlockRow(blocks[i]))
  }

  lemma {:induction false} ScanOfAppend(es: seq<Event>, e: Event)
    ensures ScanOf(es + [e]) == Step(ScanOf(es), e)
  {
    ScanOfNext(es + [e], |es|);
    assert (es + [e])[..|es|] == es && (es + [e])[..|es| + 1] == es + [e];
  }

  lemma {:induction false} ScanOfRefused(es: seq<Event>, n: nat)
    ensures ScanOf(es + Refused(n)) == if n == 0 then ScanOf(es) else Scan(ScanOf(es).rows, false)
  {
    if n == 0 {
      assert es + [] == es;
    } else {
      ScanOfRefused(es, n - 1);
      ScanOfAppend(es + Refused(n - 1), Unreadable);
      assert es + Refused(n) == es + Refused(n - 1) + [Unreadable];
    }
  }

  /** The swap lines behind a start. */
  lemma {:induction false} ScanOfSwaps(es: seq<Event>, front: seq<Row>, b: Block)
    requires ScanOf(es) == if b.mem.Some? then Scan(front + [Row(b.mem, None)], true) else Scan(front, false)
    requires b.mem.Some? || b.swaps != []
    ensures ScanOf(es + SwapEvents(b.swaps)) == Scan(front + [BlockRow(b)], true)
    decreases |b.swaps|
  {
    if b.swaps == [] {
      assert es + [] == es;
    } else {
      var last, less := b.swaps[|b.swaps| - 1], b.swaps[..|b.swaps| - 1];
      assert es + SwapEvents(b.swaps) == es + SwapEvents(less) + [HasSwap(last)];
      ScanOfAppend(es + SwapEvents(less), HasSwap(last));
      if b.mem.Some? || less != [] {
        ScanOfSwaps(es, front, b.(swaps := less));
        var row := BlockRow(b.(swaps := less));
        assert (front + [row])[|front| := row.(swap := Some(last))] == front + [BlockRow(b)];
      } else {
        assert es + SwapEvents(less) == es;
      }
    }
  }

  lemma {:induction false} ScanOfBlock(before: seq<Event>, b: Block)
    requires b.mem.Some? || b.swaps != []
    requires b.mem.None? ==> b.refused > 0 || !ScanOf(before).open
    ensures ScanOf(before + BlockEvents(b)) == Scan(ScanOf(before).rows + [BlockRow(b)], true)
  {
    var es := before + Refused(b.refused);
    ScanOfRefused(before, b.refused);
    match b.mem {
      case Some(mem) =>
        ScanOfAppend(es, Begins(mem));
        assert before + BlockEvents(b) == es + [Begins(mem)] + SwapEvents(b.swaps);
        ScanOfSwaps(es + [Begins(mem)], ScanOf(before).rows, b);
      case None =>
        assert before + BlockEvents(b) == es + SwapEvents(b.swaps);
        ScanOfSwaps(es, ScanOf(before).rows, b);
    }
  }

  /** Any blocks are read back as their rows. */
  lemma {:induction false} ScanOfBlocks(blocks: seq<Block>)
    requires WellFormed(blocks)
    ensures ScanOf(BlocksEvents(blocks)) == Scan(BlockRows(blocks), blocks != [])
  {
    if blocks != [] {
      var front := blocks[..|blocks| - 1];
      ScanOfBlocks(front);
      ScanOfBlock(BlocksEvents(front), blocks[|blocks| - 1]);
      assert BlockRows(blocks) == BlockRows(front) + [BlockRow(blocks[|blocks| - 1])];
    }
  }

  /** A swap line joins the block begun last, or makes a block of its own behind refused starts. */
  function AddSwap(blocks: seq<Block>, refused: nat, swap: Swap): seq<Block> {
    if refused > 0 || blocks == [] then blocks + [Block(refused, None, [swap])]
    else
      var last := blocks[|blocks| - 1];
      blocks[..|blocks| - 1] + [last.(swaps := last.swaps + [swap])]
  }

  lemma {:induction false} MoreSwaps(b: Block, swap: Swap)
    ensures BlockEvents(b.(swaps := b.swaps + [swap])) == BlockEvents(b) + [HasSwap(swap)]
  {
    assert (b.swaps + [swap])[..|b.swaps|] == b.swaps;
  }

  lemma {:induction false} AddSwapIsSwap(blocks: seq<Block>, refused: nat, swap: Swap)
    requires WellFormed(blocks)
    ensures WellFormed(AddSwap(blocks, refused, swap))
    ensures BlocksEvents(AddSwap(blocks, refused, swap)) == BlocksEvents(blocks) + Refused(refused) + [HasSwap(swap)]
  {
    var longer := AddSwap(blocks, refused, swap);
    if refused > 0 || blocks == [] {
      assert longer[..|longer| - 1] == blocks;
      assert [] + [swap] == [swap];
      MoreSwaps(Block(refused, None, []), swap);
      assert BlockEvents(Block(refused, None, [])) == Refused(refused);
    } else {
      assert longer[..|longer| - 1] == blocks[..|blocks| - 1];
      MoreSwaps(blocks[|blocks| - 1], swap);
    }
  }

  lemma {:induction false} AddStart(blocks: seq<Block>, refused: nat, mem: Mem)
    requires WellFormed(blocks)
    ensures WellFormed(blocks + [Block(refused, Some(mem), [])])
    ensures BlocksEvents(blocks + [Block(refused, Some(mem), [])])
         == BlocksEvents(blocks) + Refused(refused) + [Begins(mem)]
  {
    var b := Block(refused, Some(mem), []);
    assert (blocks + [b])[..|blocks|] == blocks;
    assert BlockEvents(b) == Refused(refused) + [Begins(mem)];
  }

  /** Whatever a report says, it says it in blocks, with refused starts at its end. */
  lemma {:induction false} EventsAreBlocks(es: seq<Event>) returns (blocks: seq<Block>, refused: nat)
    requires forall i | 0 <= i < |es| :: !es[i].Noise?
    ensures WellFormed(blocks) && es == BlocksEvents(blocks) + Refused(refused)
  {
    if es == [] {
      return [], 0;
    }
    var front, last := es[..|es| - 1], es[|es| - 1];
    blocks, refused := EventsAreBlocks(front);
    assert es == front + [last];
    match last {
      case Begins(mem) =>
        AddStart(blocks, refused, mem);
        blocks, refused := blocks + [Block(refused, Some(mem), [])], 0;
      case Unreadable =>
        refused := refused + 1;
      case HasSwap(swap) =>
        AddSwapIsSwap(blocks, refused, swap);
        blocks, refused := AddSwap(blocks, refused, swap), 0;
    }
  }

  /**
   A swap line lands on the sample begun last: on the record of the last readable start, or on a
   record of its own when the last start was unreadable. A later swap of that sample replaces it.
   */
  lemma {:induction false} SwapLandsOnLastStart(before: seq<Event>, start: Event, between: seq<Event>, swap: Swap)
    requires start.Begins? || start.Unreadable?
    requires forall i | 0 <= i < |between| :: between[i].HasSwap? || between[i].Noise?
    ensures var mem := if start.Begins? then Some(start.mem) else None;
            ScanOf(before + [start] + between + [HasSwap(swap)])
            == Scan(ScanOf(before).rows + [Row(mem, Some(swap))], true)
    decreases |between|
  {
    var es := before + [start] + between;
    ScanOfAppend(es, HasSwap(swap));
    if between == [] {
      assert es == before + [start];
      ScanOfAppend(before, start);
    } else {
      var less, last := between[..|between| - 1], between[|between| - 1];
      assert es == before + [start] + less + [last];
      if last.HasSwap? {
        SwapLandsOnLastStart(before, start, less, last.swap);
      } else {
        SwapLandsOnLastStart(before, start, less, swap);
        ScanOfAppend(before + [start] + less, last);
        ScanOfAppend(before + [start] + less, HasSwap(swap));
      }
    }
  }

  /** No row is empty, and the rows' memory parts are the readable ones of the text, in order. */
  lemma {:induction false} MemoryIsConserved(es: seq<Event>)
    ensures var rows := ScanOf(es).rows;
            && (forall i | 0 <= i < |rows| :: rows[i].mem.Some? || rows[i].swap.Some?)
            && MemsOfRows(rows) == MemsOfEvents(es)
            && (ScanOf(es).open ==> rows != [])
  {
    if es != [] {
      var front, e := es[..|es| - 1], es[|es| - 1];
      MemoryIsConserved(front);
      var before, after := ScanOf(front).rows, ScanOf(es).rows;
      if |after| > |before| {
        assert after[..|after| - 1] == before;
      } else if e.HasSwap? {
        assert after[..|after| - 1] == before[..|before| - 1];
      }
    }
  }

  function MemsOfRows(rows: seq<Row>): seq<Mem> {
    if rows == [] then []
    else MemsOfRows(rows[..|rows| - 1]) + match rows[|rows| - 1].mem case Some(m) => [m] case None => []
  }

  function MemsOfEvents(es: seq<Event>): seq<Mem> {
    if es == [] then []
    else MemsOfEvents(es[..|es| - 1]) + if es[|es| - 1].Begins? then [es[|es| - 1].mem] else []
  }

  // ----- printed lines

  function MemNumbers(mem: Mem): seq<int> {
    match mem
    case Wide(t, u, f, sh, bu, ca, av) => [t, u, f, sh, bu, ca, av]
    case Usual(t, u, f, sh, bc, av) => [t, u, f, sh, bc, av]
    case Short(t, u, f) => [t, u, f]
  }

  function SwapNumbers(swap: Swap): seq<int> { [swap.total, swap.used, swap.free] }

  function IntTexts(ns: seq<int>): (ts: seq<string>)
    ensures |ts| == |ns|
  {
    seq(|ns|, i requires 0 <= i < |ns| => IntStr(ns[i]))
  }

  lemma {:induction false} IntsCons(text: string, n: int, texts: seq<string>, ns: seq<int>)
    requires PyInt(text) == Some(n) && Ints(texts) == Some(ns)
    ensures Ints([text] + texts) == Some([n] + ns)
  {
    assert ([text] + texts)[1..] == texts;
  }

  lemma {:induction false} IntsOfIntTexts(ns: seq<int>)
    ensures Ints(IntTexts(ns)) == Some(ns)
  {
    if ns != [] {
      var n, rest := ns[0], ns[1..];
      IntsOfIntTexts(rest);
      PyIntOfIntStr(n);
      IntsCons(IntStr(n), n, IntTexts(rest), rest);
      assert IntTexts(ns) == [IntStr(n)] + IntTexts(rest);
      assert ns == [n] + rest;
    }
  }

  /** The number of surplus columns under which a memory line keeps its shape. */
  function Surplus(mem: Mem, extra: nat): bool {
    match mem
    case Wide(_, _, _, _, _, _, _) => true
    case Usual(_, _, _, _, _, _) => extra == 0
    case Short(_, _, _) => extra <= 2
  }

  lemma {:induction false} ParseMemOfNumbers(mem: Mem, extra: seq<string>)
    requires Surplus(mem, |extra|)
    ensures ParseMem(IntTexts(MemNumbers(mem)) + extra) == Some(mem)
  {
    var ns := MemNumbers(mem);
    IntsOfIntTexts(ns);
    assert (IntTexts(ns) + extra)[..|ns|] == IntTexts(ns);
  }

  lemma {:induction false} ParseSwapOfNumbers(swap: Swap, extra: seq<string>)
    ensures ParseSwap(IntTexts(SwapNumbers(swap)) + extra) == Some(swap)
  {
    var ns := SwapNumbers(swap);
    IntsOfIntTexts(ns);
    assert (IntTexts(ns) + extra)[..3] == IntTexts(ns);
  }

  /** A printed line: a name, a colon and columns, with any white space around them. */
  datatype Line = Line(pad: string, name: string, gap: string, cells: seq<Cell>, tail: string)

  function LineText(l: Line): string { l.pad + l.name + l.gap + ":" + RowText(l.cells) + l.tail }

  predicate WellPrinted(l: Line) {
    && AllSpace(l.pad) && AllSpace(l.gap) && AllSpace(l.tail)
    && IsToken(l.name) && ':' !in l.name
    && WellSpaced(l.cells)
  }

  lemma {:induction false} StripOfLine(l: Line)
    requires WellPrinted(l)
    ensures Strip(LineText(l)) == l.name + l.gap + ":" + RStrip(RowText(l.cells) + l.tail)
  {
    var head, rest := l.name + l.gap + ":", RowText(l.cells) + l.tail;
    assert LineText(l) == l.pad + (head + rest);
    LStripGap(l.pad, head + rest);
    assert LStrip(head + rest) == head + rest;
    RStripKeeps(head, rest);
  }

  lemma {:induction false} LineParts(l: Line)
    requires WellPrinted(l)
    ensures Fields(LineText(l)) == Some((Lower(l.name), Texts(l.cells)))
  {
    var head, rest := l.name + l.gap, RowText(l.cells) + l.tail;
    var line := Strip(LineText(l));
    StripOfLine(l);
    FindExact(head, ':', RStrip(rest));
    assert line == head + [':'] + RStrip(rest);
    assert line[..|head|] == head && line[|head| + 1..] == RStrip(rest);
    StripOfName(l.name, l.gap);
    SplitRStrip(rest);
    SplitRow(l.cells, l.tail);
  }

  lemma {:induction false} StripOfName(name: string, gap: string)
    requires IsToken(name) && AllSpace(gap)
    ensures Strip(name + gap) == name
  {
    assert LStrip(name + gap) == name + gap;
    RStripGap(name, gap);
    StripFixed(name);
  }

  /** A line "mem", in any case and spacing, with the numbers of `mem` begins that sample. */
  lemma {:induction false} MemLineReads(l: Line, mem: Mem, extra: seq<string>)
    requires WellPrinted(l) && Lower(l.name) == "mem"
    requires Texts(l.cells) == IntTexts(MemNumbers(mem)) + extra && Surplus(mem, |extra|)
    ensures Classify(LineText(l)) == Begins(mem)
  {
    LineParts(l);
    ParseMemOfNumbers(mem, extra);
  }

  lemma {:induction false} SwapLineReads(l: Line, swap: Swap, extra: seq<string>)
    requires WellPrinted(l) && Lower(l.name) == "swap"
    requires Texts(l.cells) == IntTexts(SwapNumbers(swap)) + extra
    ensures Classify(LineText(l)) == HasSwap(swap)
  {
    LineParts(l);
    ParseSwapOfNumbers(swap, extra);
    assert Lower(l.name) != "mem" by { assert |Lower(l.name)| == 4; }
  }

  /** Lines with another name, such as "Total:", say nothing. */
  lemma {:induction false} OtherLineReads(l: Line)
    requires WellPrinted(l) && Lower(l.name) != "mem" && Lower(l.name) != "swap"
    ensures Classify(LineText(l)) == Noise
  {
    LineParts(l);
  }

  /** Lines without a colon, such as the header and blank lines, say nothing. */
  lemma {:induction false} ColonlessLineReads(raw: string)
    requires ':' !in raw
    ensures Classify(raw) == Noise
  {
    StripKeepsCharacters(raw);
  }

  lemma {:induction false} LStripKeepsCharacters(s: string)
    ensures forall c :: c in LStrip(s) ==> c in s
  {
    if s != "" && IsSpace(s[0]) { LStripKeepsCharacters(s[1..]); }
  }

  lemma {:induction false} RStripKeepsCharacters(s: string)
    ensures forall c :: c in RStrip(s) ==> c in s
  {
    if s != "" && IsSpace(s[|s| - 1]) { RStripKeepsCharacters(s[..|s| - 1]); }
  }

  lemma {:induction false} StripKeepsCharacters(s: string)
    ensures forall c :: c in Strip(s) ==> c in s
  {
    LStripKeepsCharacters(s);
    RStripKeepsCharacters(LStrip(s));
  }

  /** How one line of a printed report is meant. */
  datatype Printed =
    | PrintedMem(line: Line, mem: Mem, extra: seq<string>)
    | PrintedUnreadable(line: Line)
    | PrintedSwap(line: Line, swap: Swap, extra: seq<string>)
    | PrintedOther(line: Line)
    | PrintedPlain(text: string)

  function PrintedText(p: Printed): string { if p.PrintedPlain? then p.text else LineText(p.line) }

  function Meant(p: Printed): Event {
    match p
    case PrintedMem(_, mem, _) => Begins(mem)
    case PrintedUnreadable(_) => Unreadable
    case PrintedSwap(_, swap, _) => HasSwap(swap)
    case _ => Noise
  }

  predicate Faithful(p: Printed) {
    && NoBreak(PrintedText(p))
    && (!p.PrintedPlain? ==> WellPrinted(p.line))
    && match p
       case PrintedMem(line, mem, extra) =>
         && Lower(line.name) == "mem" && Surplus(mem, |extra|)
         && Texts(line.cells) == IntTexts(MemNumbers(mem)) + extra
       case PrintedUnreadable(line) => Lower(line.name) == "mem" && ParseMem(Texts(line.cells)) == None
       case PrintedSwap(line, swap, extra) =>
         Lower(line.name) == "swap" && Texts(line.cells) == IntTexts(SwapNumbers(swap)) + extra
       case PrintedOther(line) => Lower(line.name) != "mem" && Lower(line.name) != "swap"
       case PrintedPlain(text) => ':' !in text
  }

  lemma {:induction false} FaithfulReads(p: Printed)
    requires Faithful(p)
    ensures Classify(PrintedText(p)) == Meant(p)
  {
    match p {
      case PrintedMem(line, mem, extra) => MemLineReads(line, mem, extra);
      case PrintedUnreadable(line) => LineParts(line);
      case PrintedSwap(line, swap, extra) => SwapLineReads(line, swap, extra);
      case PrintedOther(line) => OtherLineReads(line);
      case PrintedPlain(text) => ColonlessLineReads(text);
    }
  }

  function PrintedTexts(ps: seq<Printed>): (ts: seq<string>)
    ensures |ts| == |ps|
  {
    seq(|ps|, i requires 0 <= i < |ps| => PrintedText(ps[i]))
  }

  function AllMeant(ps: seq<Printed>): (es: seq<Event>)
    ensures |es| == |ps|
  {
    seq(|ps|, i requires 0 <= i < |ps| => Meant(ps[i]))
  }

  lemma {:induction false} EventsOfPrinted(ps: seq<Printed>)
    requires forall i | 0 <= i < |ps| :: Faithful(ps[i])
    ensures Events(PrintedTexts(ps)) == AllMeant(ps)
  {
    forall i | 0 <= i < |ps| ensures Classify(PrintedText(ps[i])) == Meant(ps[i]) {
      FaithfulReads(ps[i]);
    }
  }

  /**
   The round trip: a report whose lines, noise aside, are those of some blocks reads as the rows of the
   blocks, for any number of samples with memory, swap or both, any of the three memory shapes, refused
   starts, repeated swap lines, any spacing, surplus columns and noise lines.
   */
  lemma {:induction false} FreeRoundTrip(ps: seq<Printed>, blocks: seq<Block>, refused: nat)
    requires forall i | 0 <= i < |ps| :: Faithful(ps[i])
    requires WellFormed(blocks) && Meaningful(AllMeant(ps)) == BlocksEvents(blocks) + Refused(refused)
    ensures RowsOfReport(Unlines(PrintedTexts(ps))) == BlockRows(blocks)
  {
    SplitUnlines(PrintedTexts(ps));
    EventsOfPrinted(ps);
    NoiseIsSkipped(AllMeant(ps));
    ScanOfBlocks(blocks);
    ScanOfRefused(BlocksEvents(blocks), refused);
  }

  lemma {:induction false} MeaningfulHasNoNoise(es: seq<Event>)
    ensures forall i | 0 <= i < |Meaningful(es)| :: !Meaningful(es)[i].Noise?
  {
    if es != [] {
      MeaningfulHasNoNoise(es[..|es| - 1]);
    }
  }

  /** The round trip leaves out no text: every one says some blocks, and its rows are theirs. */
  lemma {:induction false} EveryReportIsBlocks(stdout: string) returns (blocks: seq<Block>, refused: nat)
    ensures WellFormed(blocks)
    ensures Meaningful(Events(SplitLines(stdout))) == BlocksEvents(blocks) + Refused(refused)
    ensures RowsOfReport(stdout) == BlockRows(blocks)
  {
    var es := Events(SplitLines(stdout));
    MeaningfulHasNoNoise(es);
    NoiseIsSkipped(es);
    blocks, refused := EventsAreBlocks(Meaningful(es));
    ScanOfBlocks(blocks);
    ScanOfRefused(BlocksEvents(blocks), refused);
  }
}
