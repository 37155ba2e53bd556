/** The ASCII part of the Python string operations the parsers rely on. */
module Text {
  import opened Wrappers

  // ----- character classes

  /** str.isspace */
  predicate IsSpace(c: char) { c == ' ' || 9 <= c as int <= 13 || 28 <= c as int <= 31 }

  /** The characters at which str.splitlines ends a line. */
  predicate IsBreak(c: char) { 10 <= c as int <= 13 || 28 <= c as int <= 30 }

  predicate IsDigit(c: char) { '0' <= c <= '9' }

  /** str.isdigit */
  predicate IsDigits(s: string) { s != "" && forall i | 0 <= i < |s| :: IsDigit(s[i]) }

  /** The characters that reject_unsafe_chars refuses. */
  predicate IsUnsafe(c: char) { c as int == 0 || c == '\n' || c == '\r' }

  predicate NoUnsafe(s: string) { forall i | 0 <= i < |s| :: !IsUnsafe(s[i]) }

  predicate AllSpace(s: string) { forall i | 0 <= i < |s| :: IsSpace(s[i]) }

  predicate NoSpace(s: string) { forall i | 0 <= i < |s| :: !IsSpace(s[i]) }

  predicate NoBreak(s: string) { forall i | 0 <= i < |s| :: !IsBreak(s[i]) }

  function LowerChar(c: char): char { if 'A' <= c <= 'Z' then c + 32 as char else c }

  function Lower(s: string): (r: string)
    ensures |r| == |s|
  {
    seq(|s|, i requires 0 <= i < |s| => LowerChar(s[i]))
  }

  // ----- strip

  function LStrip(s: string): string {
    if s != "" && IsSpace(s[0]) then LStrip(s[1..]) else s
  }

  function RStrip(s: string): string {
    if s != "" && IsSpace(s[|s| - 1]) then RStrip(s[..|s| - 1]) else s
  }

  function Strip(s: string): string { RStrip(LStrip(s)) }

  lemma {:induction false} LStripGap(gap: string, rest: string)
    requires AllSpace(gap)
    ensures LStrip(gap + rest) == LStrip(rest)
  {
    if gap == "" {
      assert gap + rest == rest;
    } else {
      assert (gap + rest)[1..] == gap[1..] + rest;
      LStripGap(gap[1..], rest);
    }
  }

  lemma {:induction false} RStripGap(rest: string, gap: string)
    requires AllSpace(gap)
    ensures RStrip(rest + gap) == RStrip(rest)
  {
    if gap == "" {
      assert rest + gap == rest;
    } else {
      assert (rest + gap)[..|rest + gap| - 1] == rest + gap[..|gap| - 1];
      RStripGap(rest, gap[..|gap| - 1]);
    }
  }

  /** What no trailing white space changes, rstrip does not change. */
  lemma {:induction false} RStripInvariant<T>(f: string -> T, s: string)
    requires forall u: string, c: char {:trigger f(u + [c])} | IsSpace(c) :: f(u + [c]) == f(u)
    ensures f(RStrip(s)) == f(s)
  {
    if s != "" && IsSpace(s[|s| - 1]) {
      var front := s[..|s| - 1];
      RStripInvariant(f, front);
      assert s == front + [s[|s| - 1]];
    }
  }

  /** Trailing white space is all that rstrip removes after a non-space character. */
  lemma {:induction false} RStripKeeps(head: string, tail: string)
    requires head != "" && !IsSpace(head[|head| - 1])
    ensures RStrip(head + tail) == head + RStrip(tail)
  {
    if tail == "" {
      assert head + tail == head;
    } else if IsSpace(tail[|tail| - 1]) {
      assert (head + tail)[..|head + tail| - 1] == head + tail[..|tail| - 1];
      RStripKeeps(head, tail[..|tail| - 1]);
    }
  }

  /** A string whose ends are not white space is its own strip. */
  lemma {:induction false} StripFixed(s: string)
    requires s == "" || (!IsSpace(s[0]) && !IsSpace(s[|s| - 1]))
    ensures LStrip(s) == s && RStrip(s) == s && Strip(s) == s
  {}

  // ----- split

  /** Length of the run of non-space characters that starts `s`. */
  function TokenLength(s: string): (n: nat)
    ensures n <= |s|
    ensures s != "" && !IsSpace(s[0]) ==> 0 < n
  {
    if s != "" && !IsSpace(s[0]) then 1 + TokenLength(s[1..]) else 0
  }

  lemma {:induction false} LStripShrinks(s: string)
    ensures |LStrip(s)| <= |s|
    ensures LStrip(s) != "" ==> !IsSpace(LStrip(s)[0])
  {
    if s != "" && IsSpace(s[0]) { LStripShrinks(s[1..]); }
  }

  /** str.split() */
  function Split(s: string): seq<string>
    decreases |s|
  {
    LStripShrinks(s);
    var t := LStrip(s);
    if t == "" then [] else [t[..TokenLength(t)]] + Split(t[TokenLength(t)..])
  }

  /** str.split(maxsplit=m): the last piece keeps its inner and trailing white space. */
  function SplitMax(s: string, m: nat): seq<string>
    decreases |s|, m
  {
    LStripShrinks(s);
    var t := LStrip(s);
    if t == "" then []
    else if m == 0 then [t]
    else [t[..TokenLength(t)]] + SplitMax(t[TokenLength(t)..], m - 1)
  }

  predicate IsToken(t: string) { t != "" && NoSpace(t) }

  /** What may follow a token: nothing, or white space. */
  predicate Ends(rest: string) { rest == "" || IsSpace(rest[0]) }

  lemma {:induction false} TokenLengthExact(t: string, rest: string)
    requires NoSpace(t) && Ends(rest)
    ensures TokenLength(t + rest) == |t|
  {
    if t == "" {
      assert t + rest == rest;
    } else {
      assert (t + rest)[1..] == t[1..] + rest;
      TokenLengthExact(t[1..], rest);
    }
  }

  lemma {:induction false} LStripToToken(gap: string, u: string)
    requires AllSpace(gap) && u != "" && !IsSpace(u[0])
    ensures LStrip(gap + u) == u
  {
    LStripGap(gap, u);
  }

  lemma {:induction false} TokenAtStart(gap: string, t: string, rest: string)
    requires AllSpace(gap) && IsToken(t) && Ends(rest)
    ensures LStrip(gap + t + rest) == t + rest
    ensures TokenLength(t + rest) == |t| && (t + rest)[..|t|] == t && (t + rest)[|t|..] == rest
  {
    assert gap + t + rest == gap + (t + rest);
    assert (t + rest)[0] == t[0];
    LStripToToken(gap, t + rest);
    TokenLengthExact(t, rest);
  }

  lemma {:induction false} FirstToken(gap: string, t: string, rest: string)
    requires AllSpace(gap) && IsToken(t) && Ends(rest)
    ensures Split(gap + t + rest) == [t] + Split(rest)
  {
    TokenAtStart(gap, t, rest);
  }

  lemma {:induction false} FirstTokenMax(gap: string, t: string, rest: string, m: nat)
    requires AllSpace(gap) && IsToken(t) && Ends(rest) && 0 < m
    ensures SplitMax(gap + t + rest, m) == [t] + SplitMax(rest, m - 1)
  {
    TokenAtStart(gap, t, rest);
  }

  lemma {:induction false} SplitBlank(s: string)
    requires AllSpace(s)
    ensures Split(s) == []
  {
    LStripGap(s, "");
    assert s + "" == s;
  }

  lemma {:induction false} SplitIgnoresTail(s: string, tail: string)
    requires AllSpace(tail)
    ensures Split(s + tail) == Split(s)
    decreases |s|
  {
    LStripShrinks(s);
    var t := LStrip(s);
    LStripOf(s, tail);
    if t == "" {
      SplitBlank(tail);
    } else {
      var n := TokenLength(t);
      TokenLengthPrefix(t, tail);
      assert (t + tail)[..n] == t[..n] && (t + tail)[n..] == t[n..] + tail;
      assert LStrip(t + tail) == t + tail;
      SplitIgnoresTail(t[n..], tail);
    }
  }

  lemma {:induction false} LStripOf(s: string, tail: string)
    ensures LStrip(s) != "" ==> LStrip(s + tail) == LStrip(s) + tail
    ensures LStrip(s) == "" ==> LStrip(s + tail) == LStrip(tail)
  {
    if s == "" {
      assert s + tail == tail;
    } else if IsSpace(s[0]) {
      assert (s + tail)[1..] == s[1..] + tail;
      LStripOf(s[1..], tail);
    }
  }

  lemma {:induction false} TokenLengthPrefix(t: string, tail: string)
    requires AllSpace(tail)
    ensures TokenLength(t + tail) == TokenLength(t)
  {
    if t == "" {
      assert t + tail == tail;
    } else if !IsSpace(t[0]) {
      assert (t + tail)[1..] == t[1..] + tail;
      TokenLengthPrefix(t[1..], tail);
    }
  }

  lemma {:induction false} SplitRStrip(s: string)
    ensures Split(RStrip(s)) == Split(s)
  {
    if s != "" && IsSpace(s[|s| - 1]) {
      SplitRStrip(s[..|s| - 1]);
      SplitIgnoresTail(s[..|s| - 1], s[|s| - 1..]);
      assert s[..|s| - 1] + s[|s| - 1..] == s;
    }
  }

  // ----- rows: tokens set apart by arbitrary white space

  datatype Cell = Cell(gap: string, text: string)

  function RowText(cells: seq<Cell>): string {
    if cells == [] then "" else cells[0].gap + cells[0].text + RowText(cells[1..])
  }

  function Texts(cells: seq<Cell>): (ts: seq<string>)
    ensures |ts| == |cells|
  {
    if cells == [] then [] else [cells[0].text] + Texts(cells[1..])
  }

  predicate Gapped(cells: seq<Cell>) {
    forall i | 0 <= i < |cells| :: IsToken(cells[i].text) && AllSpace(cells[i].gap) && cells[i].gap != ""
  }

  /** Gapped, except that the row may start at column zero. */
  predicate WellSpaced(cells: seq<Cell>) {
    cells != [] ==> IsToken(cells[0].text) && AllSpace(cells[0].gap) && Gapped(cells[1..])
  }

  lemma {:induction false} RowTextCons(cells: seq<Cell>, tail: string)
    requires cells != []
    ensures RowText(cells) + tail == cells[0].gap + cells[0].text + (RowText(cells[1..]) + tail)
  {}

  lemma {:induction false} RowEnds(cells: seq<Cell>, tail: string)
    requires Gapped(cells) && Ends(tail)
    ensures Ends(RowText(cells) + tail)
  {
    if cells != [] { assert IsSpace(cells[0].gap[0]); }
  }

  lemma {:induction false} SplitRow(cells: seq<Cell>, tail: string)
    requires WellSpaced(cells) && AllSpace(tail)
    ensures Split(RowText(cells) + tail) == Texts(cells)
  {
    if cells == [] {
      assert RowText(cells) + tail == tail;
      SplitBlank(tail);
    } else {
      var rest := RowText(cells[1..]) + tail;
      RowEnds(cells[1..], tail);
      RowTextCons(cells, tail);
      FirstToken(cells[0].gap, cells[0].text, rest);
      assert WellSpaced(cells[1..]);
      SplitRow(cells[1..], tail);
    }
  }

  // ----- splitlines and join

  function LineLength(s: string): (n: nat)
    ensures n <= |s|
  {
    if s == "" || IsBreak(s[0]) then 0 else 1 + LineLength(s[1..])
  }

  /** What follows the first line; a carriage return followed by a line feed is one break. */
  function AfterLine(s: string): (rest: string)
    requires s != ""
    ensures |rest| < |s|
  {
    var n := LineLength(s);
    if n == |s| then ""
    else if s[n] == '\r' && n + 1 < |s| && s[n + 1] == '\n' then s[n + 2..]
    else s[n + 1..]
  }

  /** str.splitlines() */
  function SplitLines(s: string): seq<string>
    decreases |s|
  {
    if s == "" then [] else [s[..LineLength(s)]] + SplitLines(AfterLine(s))
  }

  function Unlines(lines: seq<string>): string {
    if lines == [] then "" else lines[0] + "\n" + Unlines(lines[1..])
  }

  lemma {:induction false} LineLengthExact(line: string, rest: string)
    requires NoBreak(line) && rest != "" && IsBreak(rest[0])
    ensures LineLength(line + rest) == |line|
  {
    if line == "" {
      assert line + rest == rest;
    } else {
      assert (line + rest)[1..] == line[1..] + rest;
      LineLengthExact(line[1..], rest);
    }
  }

  lemma {:induction false} SplitUnlines(lines: seq<string>)
    requires forall i | 0 <= i < |lines| :: NoBreak(lines[i])
    ensures SplitLines(Unlines(lines)) == lines
  {
    if lines != [] {
      var rest := Unlines(lines[1..]);
      var s := Unlines(lines);
      assert s == lines[0] + ("\n" + rest);
      LineLengthExact(lines[0], "\n" + rest);
      assert s[..|lines[0]|] == lines[0] && s[|lines[0]| + 1..] == rest;
      SplitUnlines(lines[1..]);
    }
  }

  /** sep.join(parts) */
  function Join(sep: string, parts: seq<string>): string {
    if parts == [] then "" else if |parts| == 1 then parts[0]
    else parts[0] + sep + Join(sep, parts[1..])
  }

  lemma {:induction false} JoinAppend(sep: string, a: seq<string>, b: seq<string>)
    requires a != [] && b != []
    ensures Join(sep, a + b) == Join(sep, a) + sep + Join(sep, b)
  {
    if |a| == 1 {
      assert (a + b)[1..] == b;
    } else {
      assert (a + b)[1..] == a[1..] + b;
      JoinAppend(sep, a[1..], b);
    }
  }

  // ----- partition

  function Find(s: string, c: char): (n: nat)
    ensures n <= |s|
    ensures n < |s| ==> s[n] == c
    ensures forall i | 0 <= i < n :: s[i] != c
  {
    if s == "" || s[0] == c then 0 else 1 + Find(s[1..], c)
  }

  lemma {:induction false} FindExact(a: string, c: char, rest: string)
    requires c !in a
    ensures Find(a + [c] + rest, c) == |a|
  {
    var s := a + [c] + rest;
    assert s[|a|] == c;
    assert forall i | 0 <= i < |a| :: s[i] == a[i];
  }

  // ----- numbers

  function DigitChar(d: nat): (c: char)
    requires d < 10
    ensures IsDigit(c) && DigitValue(c) == d
  {
    '0' + d as char
  }

  function DigitValue(c: char): nat
    requires IsDigit(c)
  {
    (c - '0') as nat
  }

  /** str(n) for a natural number. */
  function NatStr(n: nat): (s: string)
    ensures s != "" && (forall i | 0 <= i < |s| :: IsDigit(s[i]))
  {
    if n < 10 then [DigitChar(n)] else NatStr(n / 10) + [DigitChar(n % 10)]
  }

  /** str(n) */
  function IntStr(n: int): string { if n < 0 then "-" + NatStr(-n) else NatStr(n) }

  /** The unsigned part of int(): digits, with single underscores between digits. */
  function PyNat(s: string): Option<nat>
    decreases |s|
  {
    if s == "" || !IsDigit(s[|s| - 1]) then None
    else if |s| == 1 then Some(DigitValue(s[0]))
    else
      var front := if s[|s| - 2] == '_' then s[..|s| - 2] else s[..|s| - 1];
      match PyNat(front)
      case None => None
      case Some(n) => Some(10 * n + DigitValue(s[|s| - 1]))
  }

  /** int(s) in base ten, None where Python raises ValueError. */
  function PyInt(s: string): Option<int> {
    var t := Strip(s);
    if t != "" && (t[0] == '-' || t[0] == '+') then
      match PyNat(t[1..])
      case None => None
      case Some(n) => var v: int := n; Some(if t[0] == '-' then -v else v)
    else
      PyNat(t)
  }

  lemma {:induction false} PyNatOfNatStr(n: nat)
    ensures PyNat(NatStr(n)) == Some(n)
  {
    if n >= 10 {
      PyNatOfNatStr(n / 10);
      var s := NatStr(n);
      assert s[..|s| - 1] == NatStr(n / 10);
      assert s[|s| - 2] == NatStr(n / 10)[|s| - 2];
    }
  }

  /** int(str(n)) == n, and str(n) is one token. */
  lemma {:induction false} PyIntOfIntStr(n: int)
    ensures PyInt(IntStr(n)) == Some(n)
    ensures IsToken(IntStr(n))
  {
    var s := IntStr(n);
    PyNatOfNatStr(if n < 0 then -n else n);
    assert n < 0 ==> s[1..] == NatStr(-n);
    assert forall i | 0 <= i < |s| :: s[i] == '-' || IsDigit(s[i]);
    StripFixed(s);
  }

  // ----- repr

  function HexDigit(n: nat): char
    requires n < 16
  {
    if n < 10 then '0' + n as char else 'a' + (n - 10) as char
  }

  function ReprChar(c: char, quote: char): string {
    if c == quote || c == '\\' then ['\\', c]
    else if c == '\t' then "\\t"
    else if c == '\n' then "\\n"
    else if c == '\r' then "\\r"
    else if c < ' ' || c as int == 127 then "\\x" + [HexDigit(c as int / 16), HexDigit(c as int % 16)]
    else [c]
  }

  function ReprBody(s: string, quote: char): string {
    if s == "" then "" else ReprChar(s[0], quote) + ReprBody(s[1..], quote)
  }

  /** repr(s): double quotes only around a text with a single quote and no double one. */
  function Repr(s: string): string {
    var quote := if '\'' in s && '"' !in s then '"' else '\'';
    [quote] + ReprBody(s, quote) + [quote]
  }

  // ----- the character classes, in literals

  lemma {:induction false} SpacesAre(c: char)
    ensures IsSpace(c) <==> c in " \t\n\U{0B}\U{0C}\r\U{1C}\U{1D}\U{1E}\U{1F}"
    ensures IsBreak(c) <==> c in "\n\U{0B}\U{0C}\r\U{1C}\U{1D}\U{1E}"
    ensures IsUnsafe(c) <==> c in "\0\n\r"
    ensures IsDigit(c) <==> c in "0123456789"
  {}

  lemma {:induction false} LowerIs(c: char)
    ensures Lower("ABCDEFGHIJKLMNOPQRSTUVWXYZ") == "abcdefghijklmnopqrstuvwxyz"
    ensures c < 'A' || 'Z' < c ==> LowerChar(c) == c
  {}

  lemma {:induction false} StripTwice(s: string)
    ensures Strip(Strip(s)) == Strip(s)
  {
    StripEnds(s);
    StripFixed(Strip(s));
  }

  lemma {:induction false} StripEnds(s: string)
    ensures Strip(s) != "" ==> !IsSpace(Strip(s)[0]) && !IsSpace(Strip(s)[|Strip(s)| - 1])
  {
    LStripShrinks(s);
    RStripEnds(LStrip(s));
  }

  lemma {:induction false} RStripEnds(s: string)
    ensures RStrip(s) <= s && (RStrip(s) != "" ==> !IsSpace(RStrip(s)[|RStrip(s)| - 1]))
  {
    if s != "" && IsSpace(s[|s| - 1]) {
      RStripEnds(s[..|s| - 1]);
    }
  }

  lemma {:induction false} LineEnds(line: string, sep: string, rest: string)
    requires NoBreak(line) && sep != "" && IsBreak(sep[0])
    requires sep == "\r\n" || (|sep| == 1 && (sep[0] == '\r' ==> rest == "" || rest[0] != '\n'))
    ensures SplitLines(line + sep + rest) == [line] + SplitLines(rest)
  {
    var s := line + sep + rest;
    assert s == line + (sep + rest);
    LineLengthExact(line, sep + rest);
    assert s[..|line|] == line && s[|line| + |sep|..] == rest;
  }

  /** Each of the line boundaries ends a line, and a carriage return with a line feed is one of them. */
  lemma {:induction false} LineBoundary(line: string, c: char, rest: string)
    requires NoBreak(line) && c in "\n\r\U{0B}\U{0C}\U{1C}\U{1D}\U{1E}"
    ensures c == '\r' ==> SplitLines(line + "\r\n" + rest) == [line] + SplitLines(rest)
    ensures (c == '\r' ==> rest == "" || rest[0] != '\n') ==>
              SplitLines(line + [c] + rest) == [line] + SplitLines(rest)
  {
    if c == '\r' { LineEnds(line, "\r\n", rest); }
    if c == '\r' ==> rest == "" || rest[0] != '\n' { LineEnds(line, [c], rest); }
  }

  /** int() takes a sign of either kind, and outer white space. */
  lemma {:induction false} SignsAre(n: nat, before: string, after: string)
    requires AllSpace(before) && AllSpace(after)
    ensures PyInt(before + NatStr(n) + after) == PyInt(before + ("+" + NatStr(n)) + after) == Some(n)
    ensures var v: int := n; PyInt(before + ("-" + NatStr(n)) + after) == Some(-v)
  {
    PyNatOfNatStr(n);
    StripPadded(before, NatStr(n), after);
    StripPadded(before, "+" + NatStr(n), after);
    StripPadded(before, "-" + NatStr(n), after);
    assert ("+" + NatStr(n))[1..] == NatStr(n) && ("-" + NatStr(n))[1..] == NatStr(n);
  }

  lemma {:induction false} StripPadded(before: string, s: string, after: string)
    requires AllSpace(before) && AllSpace(after) && s != "" && !IsSpace(s[0]) && !IsSpace(s[|s| - 1])
    ensures Strip(before + s + after) == s
  {
    assert before + s + after == before + (s + after);
    LStripToToken(before, s + after);
    RStripGap(s, after);
    StripFixed(s);
  }

  /** Single underscores between digits count for nothing; anywhere else they are refused. */
  lemma {:induction false} UnderscoresAre(s: string, d: char)
    requires IsDigit(d)
    ensures s != "" && s[|s| - 1] != '_' ==> PyNat(s + "_" + [d]) == PyNat(s + [d])
    ensures PyNat(s + "_") == None && PyNat("_" + [d]) == None && PyNat(s + "__" + [d]) == None
  {
    var a, b := s + "_" + [d], s + [d];
    assert s != "" ==> a[..|a| - 2] == s && b[..|b| - 1] == s && b[|b| - 2] == s[|s| - 1];
    var c := s + "__" + [d];
    assert c[..|c| - 2] == s + "_";
    assert ("_" + [d])[..0] == "";
  }

  /** How a text is quoted in an error message, and what stands for its characters. */
  lemma {:induction false} ReprIs(s: string, c: char, quote: char)
    requires quote == '\'' || quote == '"'
    ensures Repr(s)[0] == if '\'' in s && '"' !in s then '"' else '\''
    ensures Repr(s) == [Repr(s)[0]] + ReprBody(s, Repr(s)[0]) + [Repr(s)[0]]
    ensures c in "\\\t\n\r" || c == quote || c < ' ' || c == '\U{7F}' || ReprChar(c, quote) == [c]
    ensures ReprChar(quote, quote) == ['\\', quote] && ReprChar('\\', quote) == "\\\\"
    ensures ReprChar('\t', quote) == "\\t" && ReprChar('\n', quote) == "\\n" && ReprChar('\r', quote) == "\\r"
    ensures ReprChar('\0', quote) == "\\x00" && ReprChar('\U{1F}', quote) == "\\x1f"
    ensures ReprChar('\U{7F}', quote) == "\\x7f" && ReprChar('\U{1A}', quote) == "\\x1a"
    ensures ReprChar('\U{19}', quote) == "\\x19"
  {}

  // ----- joined lines that are stripped and split again

  lemma {:induction false} SplitJoined(lines: seq<string>)
    requires lines != [] && lines[|lines| - 1] != "" && forall i | 0 <= i < |lines| :: NoBreak(lines[i])
    ensures SplitLines(Join("\n", lines)) == lines
  {
    if |lines| == 1 {
      WholeLine(lines[0]);
      assert lines[0][..|lines[0]|] == lines[0];
    } else {
      SplitJoined(lines[1..]);
      LineEnds(lines[0], "\n", Join("\n", lines[1..]));
    }
  }

  lemma {:induction false} WholeLine(line: string)
    requires NoBreak(line)
    ensures LineLength(line) == |line|
  {
    if line != "" {
      WholeLine(line[1..]);
    }
  }

  lemma {:induction false} RStripTail(head: string, tail: string)
    requires RStrip(tail) != ""
    ensures RStrip(head + tail) == head + RStrip(tail)
  {
    if IsSpace(tail[|tail| - 1]) {
      assert (head + tail)[..|head + tail| - 1] == head + tail[..|tail| - 1];
      RStripTail(head, tail[..|tail| - 1]);
    }
  }

  lemma {:induction false} LStripJoined(first: string, later: seq<string>)
    requires LStrip(first) != "" && later != []
    ensures LStrip(Join("\n", [first] + later)) == Join("\n", [LStrip(first)] + later)
  {
    var behind := "\n" + Join("\n", later);
    JoinAppend("\n", [first], later);
    JoinAppend("\n", [LStrip(first)], later);
    LStripOf(first, behind);
    assert Join("\n", [first] + later) == first + behind;
    assert Join("\n", [LStrip(first)] + later) == LStrip(first) + behind;
  }

  lemma {:induction false} RStripJoined(before: seq<string>, last: string)
    requires RStrip(last) != "" && before != []
    ensures RStrip(Join("\n", before + [last])) == Join("\n", before + [RStrip(last)])
  {
    JoinAppend("\n", before, [last]);
    JoinAppend("\n", before, [RStrip(last)]);
    RStripTail(Join("\n", before) + "\n", last);
  }

  /** Stripping joined lines strips the first on the left and the last on the right. */
  lemma {:induction false} StripJoined(first: string, middle: seq<string>, last: string)
    requires LStrip(first) != "" && RStrip(last) != ""
    ensures Strip(Join("\n", [first] + middle + [last])) == Join("\n", [LStrip(first)] + middle + [RStrip(last)])
  {
    assert [first] + middle + [last] == [first] + (middle + [last]);
    assert [LStrip(first)] + middle + [last] == [LStrip(first)] + (middle + [last]);
    LStripJoined(first, middle + [last]);
    RStripJoined([LStrip(first)] + middle, last);
  }

  lemma {:induction false} SplitStrip(s: string)
    ensures Split(Strip(s)) == Split(s)
  {
    LStripShrinks(s);
    SplitRStrip(LStrip(s));
    assert LStrip(LStrip(s)) == LStrip(s);
  }

  /** The lines of a section that was joined and stripped, its first and last line not blank. */
  lemma {:induction false} LinesOfBody(first: string, middle: seq<string>, last: string)
    requires NoBreak(first) && NoBreak(last) && forall i | 0 <= i < |middle| :: NoBreak(middle[i])
    requires LStrip(first) != "" && RStrip(last) != ""
    ensures SplitLines(Strip(Join("\n", [first] + middle + [last]))) == [LStrip(first)] + middle + [RStrip(last)]
  {
    StripJoined(first, middle, last);
    StripKeepsBreaks(first);
    StripKeepsBreaks(last);
    SplitJoined([LStrip(first)] + middle + [RStrip(last)]);
  }

  lemma {:induction false} StripKeepsBreaks(s: string)
    requires NoBreak(s)
    ensures NoBreak(LStrip(s)) && NoBreak(RStrip(s))
    decreases |s|
  {
    if s != "" {
      StripKeepsBreaks(s[1..]);
      StripKeepsBreaks(s[..|s| - 1]);
    }
  }
}
