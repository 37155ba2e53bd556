/**
 The triage parsers whose int() stands in no handler (linux_info_mcp/tools/triage.py, _first_int,
 _parse_meminfo and _parse_conntrack), and exactly when they raise.
 */
module ProcFiles {
  import opened Wrappers
  import opened Text
  import opened Numbers

  // ----- loops that an exception ends

  /** Steps over the items until one raises. */
  function TryFold<S, T>(step: (S, T) -> Result<S>, start: S, items: seq<T>): Result<S> {
    if items == [] then Ok(start)
    else
      match TryFold(step, start, items[..|items| - 1])
      case Raises(e) => Raises(e)
      case Ok(s) => step(s, items[|items| - 1])
  }

  lemma {:induction false} TryFoldNext<S, T>(step: (S, T) -> Result<S>, start: S, items: seq<T>, i: nat, s: S)
    requires i < |items| && TryFold(step, start, items[..i]) == Ok(s)
    ensures TryFold(step, start, items[..i + 1]) == step(s, items[i])
  {
    assert items[..i + 1][..i] == items[..i];
  }

  /** Once an item has raised, the loop is over. */
  lemma {:induction false} TryFoldStops<S, T>(step: (S, T) -> Result<S>, start: S, items: seq<T>, n: nat)
    requires n <= |items| && TryFold(step, start, items[..n]).Raises?
    ensures TryFold(step, start, items) == TryFold(step, start, items[..n])
  {
    if n == |items| {
      assert items[..n] == items;
    } else {
      var front := items[..|items| - 1];
      assert front[..n] == items[..n];
      TryFoldStops(step, start, front, n);
    }
  }

  /** Where it depends on the item alone whether a step raises, and what, so it is with the loop. */
  lemma {:induction false} TryFoldRaisesIff<S, T>(step: (S, T) -> Result<S>, start: S, items: seq<T>, bad: T -> bool,
      e: Error)
    requires forall s, t {:trigger step(s, t)} :: step(s, t).Raises? <==> bad(t)
    requires forall s, t {:trigger step(s, t)} :: step(s, t).Raises? ==> step(s, t).error == e
    ensures TryFold(step, start, items).Raises? <==> exists i :: 0 <= i < |items| && bad(items[i])
    ensures TryFold(step, start, items).Raises? ==> TryFold(step, start, items).error == e
  {
    if items != [] {
      TryFoldRaisesIff(step, start, items[..|items| - 1], bad, e);
    }
  }

  // ----- the first number of a text

  /** int() of the first token of digits. */
  function FirstInt(py: Python, toks: seq<string>): Result<Option<nat>> {
    if toks == [] then Ok(None)
    else if !IsDigits(toks[0]) then FirstInt(py, toks[1..])
    else if Within(py, |toks[0]|) then Ok(PyNat(toks[0]))
    else Raises(TOO_MANY_DIGITS)
  }

  method ParseFirstInt(py: Python, s: string) returns (r: Result<Option<nat>>)
    ensures r == FirstInt(py, Split(s))
  {
    var toks := Split(s);
    for i := 0 to |toks|
      invariant FirstInt(py, toks) == FirstInt(py, toks[i..])
    {
      if IsDigits(toks[i]) {
        return if Within(py, |toks[i]|) then Ok(PyNat(toks[i])) else Raises(TOO_MANY_DIGITS);
      }
    }
    r := Ok(None);
  }

  /** The first token of digits is longer than int() converts. */
  predicate FirstIsLong(py: Python, toks: seq<string>) {
    exists i :: 0 <= i < |toks| && IsDigits(toks[i]) && !Within(py, |toks[i]|) && forall j | 0 <= j < i :: !IsDigits(toks[j])
  }

  lemma {:induction false} FirstIntRaisesIff(py: Python, toks: seq<string>)
    ensures FirstInt(py, toks).Raises? <==> FirstIsLong(py, toks)
    ensures FirstInt(py, toks).Raises? ==> FirstInt(py, toks).error == TOO_MANY_DIGITS
  {
    if toks != [] && !IsDigits(toks[0]) {
      var rest := toks[1..];
      FirstIntRaisesIff(py, rest);
      if FirstIsLong(py, toks) {
        var i :| 0 <= i < |toks| && IsDigits(toks[i]) && !Within(py, |toks[i]|) && forall j | 0 <= j < i :: !IsDigits(toks[j]);
        assert rest[i - 1] == toks[i] && forall j | 0 <= j < i - 1 :: rest[j] == toks[j + 1];
      }
      if FirstIsLong(py, rest) {
        var i :| 0 <= i < |rest| && IsDigits(rest[i]) && !Within(py, |rest[i]|) && forall j | 0 <= j < i :: !IsDigits(rest[j]);
        assert toks[i + 1] == rest[i] && forall j | 0 <= j < i + 1 :: j == 0 || toks[j] == rest[j - 1];
      }
    }
  }

  // ----- memory

  predicate IsMemoryKey(key: string) {
    key == "MemTotal" || key == "MemAvailable" || key == "SwapTotal" || key == "SwapFree"
  }

  function MemoryKey(line: string): string { Strip(line[..Find(line, ':')]) }

  function MemoryTokens(line: string): seq<string> {
    var colon := Find(line, ':');
    if colon == |line| then [] else Split(line[colon + 1..])
  }

  /** One line of /proc/meminfo. */
  function AddMemory(py: Python, out: map<string, nat>, line: string): Result<map<string, nat>> {
    if !IsMemoryKey(MemoryKey(line)) then Ok(out)
    else
      match FirstInt(py, MemoryTokens(line))
      case Raises(e) => Raises(e)
      case Ok(None) => Ok(out)
      case Ok(Some(n)) => Ok(out[MemoryKey(line) := n])
  }

  function MemoryStep(py: Python): (map<string, nat>, string) -> Result<map<string, nat>> {
    (out, line) => AddMemory(py, out, line)
  }

  function MemoryOf(py: Python, lines: seq<string>): Result<map<string, nat>> {
    TryFold(MemoryStep(py), map[], lines)
  }

  /** The body of the loop over memory lines. */
  method ParseMemoryLine(py: Python, out: map<string, nat>, line: string) returns (r: Result<map<string, nat>>)
    ensures r == AddMemory(py, out, line)
  {
    r := Ok(out);
    if IsMemoryKey(MemoryKey(line)) {
      var colon := Find(line, ':');
      var val := ParseFirstInt(py, if colon == |line| then "" else line[colon + 1..]);
      if val.Raises? {
        return Raises(val.error);
      }
      if val.value.Some? {
        r := Ok(out[MemoryKey(line) := val.value.value]);
      }
    }
  }

  method ParseMeminfo(py: Python, text: string) returns (r: Result<map<string, nat>>)
    ensures r == MemoryOf(py, SplitLines(text))
  {
    var out: map<string, nat> := map[];
    var lines := SplitLines(text);
    for i := 0 to |lines|
      invariant TryFold(MemoryStep(py), map[], lines[..i]) == Ok(out)
    {
      TryFoldNext(MemoryStep(py), map[], lines, i, out);
      r := ParseMemoryLine(py, out, lines[i]);
      if r.Raises? {
        TryFoldStops(MemoryStep(py), map[], lines, i + 1);
        return;
      }
      out := r.value;
    }
    assert lines[..|lines|] == lines;
    r := Ok(out);
  }

  predicate IsLongMemoryLine(py: Python, line: string) {
    IsMemoryKey(MemoryKey(line)) && FirstIsLong(py, MemoryTokens(line))
  }

  lemma {:induction false} AddMemoryRaisesIff(py: Python, out: map<string, nat>, line: string)
    ensures AddMemory(py, out, line).Raises? <==> IsLongMemoryLine(py, line)
    ensures AddMemory(py, out, line).Raises? ==> AddMemory(py, out, line).error == TOO_MANY_DIGITS
  {
    FirstIntRaisesIff(py, MemoryTokens(line));
  }

  lemma {:induction false} MemoryRaisesIff(py: Python, lines: seq<string>)
    ensures MemoryOf(py, lines).Raises? <==> exists i :: 0 <= i < |lines| && IsLongMemoryLine(py, lines[i])
    ensures MemoryOf(py, lines).Raises? ==> MemoryOf(py, lines).error == TOO_MANY_DIGITS
  {
    var step, bad := MemoryStep(py), line => IsLongMemoryLine(py, line);
    forall out, line
      ensures step(out, line).Raises? <==> bad(line)
      ensures step(out, line).Raises? ==> step(out, line).error == TOO_MANY_DIGITS
    {
      AddMemoryRaisesIff(py, out, line);
    }
    TryFoldRaisesIff(step, map[], lines, bad, TOO_MANY_DIGITS);
  }

  // ----- conntrack

  /** One line, which counts if it is all digits. */
  function AddInt(py: Python, nums: seq<nat>, line: string): Result<seq<nat>> {
    var s := Strip(line);
    if !IsDigits(s) then Ok(nums)
    else if Within(py, |s|) then DigitsRead(s); Ok(nums + [PyNat(s).value])
    else Raises(TOO_MANY_DIGITS)
  }

  function IntStep(py: Python): (seq<nat>, string) -> Result<seq<nat>> { (nums, line) => AddInt(py, nums, line) }

  /** The numbers of all digit lines, or the exception of the first that is too long. */
  function IntLines(py: Python, lines: seq<string>): Result<seq<nat>> { TryFold(IntStep(py), [], lines) }

  lemma {:induction false} DigitsRead(s: string)
    requires IsDigits(s)
    ensures PyNat(s).Some?
  {
    if |s| > 1 {
      DigitsRead(s[..|s| - 1]);
    }
  }

  datatype Conntrack = Conntrack(count: Option<nat>, max: Option<nat>)

  function ConntrackOf(py: Python, lines: seq<string>): Result<Conntrack> {
    match IntLines(py, lines)
    case Raises(e) => Raises(e)
    case Ok(nums) => Ok(if |nums| >= 2 then Conntrack(Some(nums[0]), Some(nums[1])) else Conntrack(None, None))
  }

  method ParseConntrack(py: Python, text: string) returns (r: Result<Conntrack>)
    ensures r == ConntrackOf(py, SplitLines(text))
  {
    var nums: seq<nat> := [];
    var lines := SplitLines(text);
    for i := 0 to |lines|
      invariant TryFold(IntStep(py), [], lines[..i]) == Ok(nums)
    {
      TryFoldNext(IntStep(py), [], lines, i, nums);
      var s := Strip(lines[i]);
      if IsDigits(s) {
        if !Within(py, |s|) {
          TryFoldStops(IntStep(py), [], lines, i + 1);
          return Raises(TOO_MANY_DIGITS);
        }
        DigitsRead(s);
        nums := nums + [PyNat(s).value];
      }
    }
    assert lines[..|lines|] == lines;
    r := Ok(if |nums| >= 2 then Conntrack(Some(nums[0]), Some(nums[1])) else Conntrack(None, None));
  }

  predicate IsLongLine(py: Python, line: string) { IsDigits(Strip(line)) && !Within(py, |Strip(line)|) }

  lemma {:induction false} ConntrackRaisesIff(py: Python, lines: seq<string>)
    ensures IntLines(py, lines).Raises? <==> exists i :: 0 <= i < |lines| && IsLongLine(py, lines[i])
    ensures IntLines(py, lines).Raises? ==> IntLines(py, lines).error == TOO_MANY_DIGITS
  {
    TryFoldRaisesIff(IntStep(py), [], lines, line => IsLongLine(py, line), TOO_MANY_DIGITS);
  }

  // ----- the numbers that are read

  /** Tokens that are no numbers are passed over, and of several numbers the first is taken. */
  lemma {:induction false} FirstIntReads(py: Python, before: seq<string>, n: nat, more: seq<string>)
    requires forall i | 0 <= i < |before| :: !IsDigits(before[i])
    requires py.digits == 0 || |NatStr(n)| <= py.digits
    ensures FirstInt(py, before + [NatStr(n)] + more) == Ok(Some(n))
    ensures FirstInt(py, before) == Ok(None)
  {
    if before == [] {
      assert before + [NatStr(n)] + more == [NatStr(n)] + more;
      PyNatOfNatStr(n);
    } else {
      assert (before + [NatStr(n)] + more)[1..] == before[1..] + [NatStr(n)] + more;
      FirstIntReads(py, before[1..], n, more);
    }
  }

  /** A line of /proc/meminfo: a key, a colon and columns of which one is the first number, or none is one. */
  datatype MemoryLine = MemoryLine(pad: string, key: string, gap: string, cells: seq<Cell>, tail: string,
                                   before: seq<string>, number: Option<nat>, more: seq<string>)

  function MemoryText(l: MemoryLine): string { l.pad + l.key + l.gap + ":" + (RowText(l.cells) + l.tail) }

  predicate GoodLine(py: Python, l: MemoryLine) {
    && AllSpace(l.pad) && AllSpace(l.gap) && AllSpace(l.tail) && IsToken(l.key) && ':' !in l.key
    && WellSpaced(l.cells) && (forall i | 0 <= i < |l.before| :: !IsDigits(l.before[i]))
    && match l.number
       case None => Texts(l.cells) == l.before
       case Some(n) =>
         Texts(l.cells) == l.before + [NatStr(n)] + l.more && (py.digits == 0 || |NatStr(n)| <= py.digits)
  }

  lemma {:induction false} MemoryParts(py: Python, l: MemoryLine)
    requires GoodLine(py, l)
    ensures MemoryKey(MemoryText(l)) == l.key && MemoryTokens(MemoryText(l)) == Texts(l.cells)
  {
    var head, rest := l.pad + l.key + l.gap, RowText(l.cells) + l.tail;
    FindExact(head, ':', rest);
    assert MemoryText(l) == head + [':'] + rest;
    assert (head + [':'] + rest)[..|head|] == head && (head + [':'] + rest)[|head| + 1..] == rest;
    StripPadded(l.pad, l.key, l.gap);
    SplitRow(l.cells, l.tail);
  }

  /** What a line adds: its number under its key, for four keys. */
  function Added(out: map<string, nat>, l: MemoryLine): map<string, nat> {
    if l.number.Some? && (l.key == "MemTotal" || l.key == "MemAvailable" || l.key == "SwapTotal" || l.key == "SwapFree")
    then out[l.key := l.number.value] else out
  }

  lemma {:induction false} MemoryLineReads(py: Python, out: map<string, nat>, l: MemoryLine)
    requires GoodLine(py, l)
    ensures AddMemory(py, out, MemoryText(l)) == Ok(Added(out, l))
  {
    MemoryParts(py, l);
    FirstIntReads(py, l.before, if l.number.Some? then l.number.value else 0, l.more);
  }

  function MemoryTexts(lines: seq<MemoryLine>): (texts: seq<string>)
    ensures |texts| == |lines|
  {
    seq(|lines|, i requires 0 <= i < |lines| => MemoryText(lines[i]))
  }

  function AllAdded(lines: seq<MemoryLine>): map<string, nat> {
    if lines == [] then map[] else Added(AllAdded(lines[..|lines| - 1]), lines[|lines| - 1])
  }

  lemma {:induction false} MemoryReads(py: Python, lines: seq<MemoryLine>)
    requires forall i | 0 <= i < |lines| :: GoodLine(py, lines[i])
    ensures MemoryOf(py, MemoryTexts(lines)) == Ok(AllAdded(lines))
  {
    if lines != [] {
      var front, last := lines[..|lines| - 1], lines[|lines| - 1];
      MemoryReads(py, front);
      MemoryLineReads(py, AllAdded(front), last);
      assert MemoryTexts(lines)[..|lines| - 1] == MemoryTexts(front);
    }
  }

  /** The last number that lines give under a key. */
  function NumberUnder(lines: seq<MemoryLine>, key: string): Option<nat> {
    if lines == [] then None
    else
      var last := lines[|lines| - 1];
      if last.key == key && last.number.Some? then last.number else NumberUnder(lines[..|lines| - 1], key)
  }

  lemma {:induction false} AddedUnder(lines: seq<MemoryLine>, key: string)
    requires key == "MemTotal" || key == "MemAvailable" || key == "SwapTotal" || key == "SwapFree"
    ensures NumberUnder(lines, key) == if key in AllAdded(lines) then Some(AllAdded(lines)[key]) else None
  {
    if lines != [] {
      AddedUnder(lines[..|lines| - 1], key);
    }
  }

  /** Padding counts for nothing. */
  lemma {:induction false} SameNumbers(a: seq<MemoryLine>, b: seq<MemoryLine>, key: string)
    requires |a| == |b| && forall i | 0 <= i < |a| :: a[i].key == b[i].key && a[i].number == b[i].number
    ensures NumberUnder(a, key) == NumberUnder(b, key)
  {
    if a != [] {
      SameNumbers(a[..|a| - 1], b[..|b| - 1], key);
    }
  }

  lemma {:induction false} RowEnd(cells: seq<Cell>)
    requires WellSpaced(cells) && cells != []
    ensures RowText(cells) != "" && !IsSpace(RowText(cells)[|RowText(cells)| - 1])
  {
    if |cells| > 1 {
      assert WellSpaced(cells[1..]);
      RowEnd(cells[1..]);
    } else {
      assert RowText(cells[1..]) == "";
    }
  }

  /** Stripping a line takes its padding away. */
  lemma {:induction false} MemoryTextStripped(py: Python, l: MemoryLine)
    requires GoodLine(py, l)
    ensures LStrip(MemoryText(l)) == MemoryText(l.(pad := "")) && RStrip(MemoryText(l)) == MemoryText(l.(tail := ""))
    ensures MemoryText(l.(pad := "")) != "" && MemoryText(l.(tail := "")) != ""
  {
    var core := l.key + l.gap + ":" + (RowText(l.cells) + l.tail);
    assert "" + l.key == l.key;
    assert MemoryText(l) == l.pad + core;
    LStripToToken(l.pad, core);
    var front := l.pad + l.key + l.gap + ":" + RowText(l.cells);
    assert MemoryText(l) == front + l.tail;
    assert RowText(l.cells) + "" == RowText(l.cells);
    RStripGap(front, l.tail);
    if l.cells != [] { RowEnd(l.cells); }
    assert !IsSpace(front[|front| - 1]);
    assert RStrip(front) == front;
  }

  // ----- printed sections of numbers

  /** A line with a number: tokens that are none, the number, and more. */
  datatype NumberLine = NumberLine(cells: seq<Cell>, tail: string, before: seq<string>, n: nat, more: seq<string>)

  function NumberText(l: NumberLine): string { RowText(l.cells) + l.tail }

  predicate GoodNumber(py: Python, l: NumberLine) {
    && WellSpaced(l.cells) && AllSpace(l.tail) && Texts(l.cells) == l.before + [NatStr(l.n)] + l.more
    && (forall i | 0 <= i < |l.before| :: !IsDigits(l.before[i])) && (py.digits == 0 || |NatStr(l.n)| <= py.digits)
  }

  lemma {:induction false} NumberReads(py: Python, l: NumberLine)
    requires GoodNumber(py, l)
    ensures FirstInt(py, Split(Strip(NumberText(l)))) == Ok(Some(l.n))
  {
    SplitStrip(NumberText(l));
    SplitRow(l.cells, l.tail);
    FirstIntReads(py, l.before, l.n, l.more);
  }

  lemma {:induction false} TwoSteps<S, T>(step: (S, T) -> Result<S>, start: S, a: T, b: T, s: S)
    requires step(start, a) == Ok(s)
    ensures TryFold(step, start, [a, b]) == step(s, b)
  {
    var items := [a, b];
    assert items[..0] == [] && items[..2] == items;
    TryFoldNext(step, start, items, 0, start);
    TryFoldNext(step, start, items, 1, s);
  }

  /** A printed integer with white space around it. */
  datatype Padded = Padded(before: string, n: nat, after: string)

  function PaddedText(x: Padded): string { x.before + NatStr(x.n) + x.after }

  predicate GoodPadded(py: Python, x: Padded) {
    AllSpace(x.before) && AllSpace(x.after) && (py.digits == 0 || |NatStr(x.n)| <= py.digits)
  }

  lemma {:induction false} PaddedReads(py: Python, x: Padded, nums: seq<nat>)
    requires GoodPadded(py, x)
    ensures AddInt(py, nums, PaddedText(x)) == Ok(nums + [x.n])
    ensures LStrip(PaddedText(x)) == PaddedText(x.(before := "")) && RStrip(PaddedText(x)) == PaddedText(x.(after := ""))
    ensures LStrip(PaddedText(x)) != "" && RStrip(PaddedText(x)) != ""
  {
    var digits := NatStr(x.n);
    PyNatOfNatStr(x.n);
    StripPadded(x.before, digits, x.after);
    assert PaddedText(x) == x.before + (digits + x.after);
    LStripToToken(x.before, digits + x.after);
    assert "" + digits + x.after == digits + x.after && x.before + digits + "" == x.before + digits;
    RStripGap(x.before + digits, x.after);
    assert RStrip(x.before + digits) == x.before + digits;
  }

  lemma {:induction false} TwoPadded(py: Python, a: Padded, b: Padded)
    requires GoodPadded(py, a) && GoodPadded(py, b)
    ensures ConntrackOf(py, [PaddedText(a), PaddedText(b)]) == Ok(Conntrack(Some(a.n), Some(b.n)))
  {
    PaddedReads(py, a, []);
    PaddedReads(py, b, [a.n]);
    assert [] + [a.n] == [a.n] && [a.n] + [b.n] == [a.n, b.n];
    assert IntStep(py)([], PaddedText(a)) == Ok([a.n]);
    TwoSteps(IntStep(py), [], PaddedText(a), PaddedText(b), [a.n]);
  }

  lemma {:induction false} ConntrackLines(py: Python, a: Padded, b: Padded)
    requires GoodPadded(py, a) && GoodPadded(py, b) && NoBreak(PaddedText(a)) && NoBreak(PaddedText(b))
    ensures ConntrackOf(py, SplitLines(Strip(Join("\n", [PaddedText(a), PaddedText(b)]))))
         == Ok(Conntrack(Some(a.n), Some(b.n)))
  {
    PaddedReads(py, a, []);
    PaddedReads(py, b, []);
    LinesOfBody(PaddedText(a), [], PaddedText(b));
    assert [PaddedText(a)] + [] + [PaddedText(b)] == [PaddedText(a), PaddedText(b)];
    TwoPadded(py, a.(before := ""), b.(after := ""));
    assert [LStrip(PaddedText(a))] + [] + [RStrip(PaddedText(b))]
        == [PaddedText(a.(before := "")), PaddedText(b.(after := ""))];
  }

  /** What is left of the padding once a section of memory lines is stripped. */
  function Stripped(lines: seq<MemoryLine>): (r: seq<MemoryLine>)
    requires |lines| >= 2
    ensures |r| == |lines|
  {
    var n := |lines| - 1;
    [lines[0].(pad := "")] + lines[1..n] + [lines[n].(tail := "")]
  }

  lemma {:induction false} MemoryTextsSplit(first: MemoryLine, middle: seq<MemoryLine>, last: MemoryLine)
    ensures MemoryTexts([first] + middle + [last]) == [MemoryText(first)] + MemoryTexts(middle) + [MemoryText(last)]
  {}

  lemma {:induction false} MemoryLines(py: Python, lines: seq<MemoryLine>)
    requires |lines| >= 2 && forall i | 0 <= i < |lines| :: GoodLine(py, lines[i]) && NoBreak(MemoryText(lines[i]))
    ensures SplitLines(Strip(Join("\n", MemoryTexts(lines)))) == MemoryTexts(Stripped(lines))
  {
    var n := |lines| - 1;
    var first, middle, last := lines[0], lines[1..n], lines[n];
    MemoryTextStripped(py, first);
    MemoryTextStripped(py, last);
    assert lines == [first] + middle + [last];
    MemoryTextsSplit(first, middle, last);
    MemoryTextsSplit(first.(pad := ""), middle, last.(tail := ""));
    LinesOfBody(MemoryText(first), MemoryTexts(middle), MemoryText(last));
  }

  lemma {:induction false} StrippedIsGood(py: Python, lines: seq<MemoryLine>, i: nat)
    requires |lines| >= 2 && i < |lines| && GoodLine(py, lines[i])
    ensures GoodLine(py, Stripped(lines)[i])
    ensures Stripped(lines)[i].key == lines[i].key && Stripped(lines)[i].number == lines[i].number
  {}

  /** A section of memory lines gives each of the four keys the last number under it. */
  lemma {:induction false} MemorySectionReads(py: Python, lines: seq<MemoryLine>, key: string)
    requires |lines| >= 2 && forall i | 0 <= i < |lines| :: GoodLine(py, lines[i]) && NoBreak(MemoryText(lines[i]))
    requires key == "MemTotal" || key == "MemAvailable" || key == "SwapTotal" || key == "SwapFree"
    ensures var mem := MemoryOf(py, SplitLines(Strip(Join("\n", MemoryTexts(lines)))));
            mem.Ok? && NumberUnder(lines, key) == if key in mem.value then Some(mem.value[key]) else None
  {
    MemoryLines(py, lines);
    var stripped := Stripped(lines);
    forall i | 0 <= i < |lines|
      ensures GoodLine(py, stripped[i]) && stripped[i].key == lines[i].key && stripped[i].number == lines[i].number
    {
      StrippedIsGood(py, lines, i);
    }
    MemoryReads(py, stripped);
    AddedUnder(stripped, key);
    SameNumbers(lines, stripped, key);
  }
}
