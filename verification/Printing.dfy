/**
 Printing of command lines: shlex.quote, words made of a literal prefix and a quoted value, and
 whole plans of pipelines. The main results say that the shell's reading undoes the printing.
 */
module Printing {
  import opened Wrappers
  import opened Text
  import opened Shell

  // ----- shlex.quote

  predicate IsSafe(c: char) {
    || 'a' <= c <= 'z' || 'A' <= c <= 'Z' || IsDigit(c)
    || c == '_' || c == '@' || c == '%' || c == '+' || c == '=' || c == ':' || c == ',' || c == '.'
    || c == '/' || c == '-'
  }

  predicate AllSafe(s: string) { forall i | 0 <= i < |s| :: IsSafe(s[i]) }

  /** A quote inside single quotes: close, a double-quoted quote, open again. */
  const QUOTE_ESCAPE := "'\"'\"'"

  function Escape(s: string): string {
    if s == "" then "" else EscapeOne(s[0]) + Escape(s[1..])
  }

  function EscapeOne(c: char): string { if c == '\'' then QUOTE_ESCAPE else [c] }

  function Quote(s: string): (r: string)
    ensures r != "" && (r[0] == '\'' || IsSafe(r[0]))
  {
    if s == "" then "''" else if AllSafe(s) then s else "'" + Escape(s) + "'"
  }

  // ----- words

  function Bares(s: string): (w: Word)
    ensures |w| == |s|
  {
    seq(|s|, i requires 0 <= i < |s| => Bare(s[i]))
  }

  function Quoteds(s: string): (w: Word)
    ensures |w| == |s|
  {
    seq(|s|, i requires 0 <= i < |s| => Quoted(s[i]))
  }

  function QuoteWord(s: string): Word { if AllSafe(s) then Bares(s) else Quoteds(s) }

  /** Characters that stand for themselves in an unquoted word. */
  predicate IsPlain(c: char) {
    !IsBlank(c) && !IsOperatorStart(c) && c != '\'' && c != '"' && c != '#' && !IsSpecial(c)
  }

  predicate AllPlain(s: string) { forall i | 0 <= i < |s| :: IsPlain(s[i]) }

  function Prepend(w: Word, s: Scan): Scan {
    match s case Stuck => Stuck case Scanned(w', rest) => Scanned(w + w', rest)
  }

  lemma {:induction false} ScanPlain(s: string, rest: string)
    requires AllPlain(s)
    ensures ScanWord(s + rest, Unquoted) == Prepend(Bares(s), ScanWord(rest, Unquoted))
  {
    if s == "" {
      assert s + rest == rest && Bares(s) == [];
      PrependNothing(ScanWord(rest, Unquoted));
    } else {
      assert (s + rest)[1..] == s[1..] + rest;
      ScanPlain(s[1..], rest);
      PrependPush(Bare(s[0]), Bares(s[1..]), ScanWord(rest, Unquoted));
      assert [Bare(s[0])] + Bares(s[1..]) == Bares(s);
    }
  }

  lemma {:induction false} CloseSingle(t: string)
    ensures ScanWord("'" + t, Single) == ScanWord(t, Unquoted)
  {
    assert ("'" + t)[1..] == t;
  }

  lemma {:induction false} OpenSingle(t: string)
    ensures ScanWord("'" + t, Unquoted) == ScanWord(t, Single)
  {
    assert ("'" + t)[1..] == t;
  }

  lemma {:induction false} QuoteInDouble(t: string)
    ensures ScanWord("\"'\"" + t, Unquoted) == Push(Quoted('\''), ScanWord(t, Unquoted))
  {
    var s := "\"'\"" + t;
    assert s[1..] == "'\"" + t && s[1..][1..] == "\"" + t && s[1..][1..][1..] == t;
    assert ScanWord(s[1..][1..], Double) == ScanWord(t, Unquoted);
    assert ScanWord(s[1..], Double) == Push(Quoted('\''), ScanWord(t, Unquoted));
  }

  /** How the shell reads an escaped quote inside single quotes. */
  lemma {:induction false} ScanEscapedQuote(rest: string)
    ensures ScanWord(QUOTE_ESCAPE + rest, Single) == Push(Quoted('\''), ScanWord(rest, Single))
  {
    var middle := "\"'\"" + ("'" + rest);
    assert QUOTE_ESCAPE + rest == "'" + middle;
    CloseSingle(middle);
    QuoteInDouble("'" + rest);
    OpenSingle(rest);
  }

  lemma {:induction false} PrependPush(p: Piece, w: Word, s: Scan)
    ensures Push(p, Prepend(w, s)) == Prepend([p] + w, s)
  {
    if s.Scanned? { assert [p] + (w + s.word) == [p] + w + s.word; }
  }

  lemma {:induction false} PrependNothing(s: Scan)
    ensures Prepend([], s) == s
  {
    if s.Scanned? { assert [] + s.word == s.word; }
  }

  lemma {:induction false} ScanEscapedOne(c: char, more: string)
    ensures ScanWord(EscapeOne(c) + more, Single) == Push(Quoted(c), ScanWord(more, Single))
  {
    if c == '\'' {
      ScanEscapedQuote(more);
    } else {
      assert ([c] + more)[1..] == more;
    }
  }

  lemma {:induction false} ScanEscapedCons(c: char, w: Word, more: string, tail: Scan)
    requires ScanWord(more, Single) == Prepend(w, tail)
    ensures ScanWord(EscapeOne(c) + more, Single) == Prepend([Quoted(c)] + w, tail)
  {
    ScanEscapedOne(c, more);
    PrependPush(Quoted(c), w, tail);
  }

  lemma {:induction false} ScanEscaped(s: string, rest: string)
    ensures ScanWord(Escape(s) + ("'" + rest), Single) == Prepend(Quoteds(s), ScanWord(rest, Unquoted))
  {
    var tail := ScanWord(rest, Unquoted);
    if s == "" {
      assert Escape(s) + ("'" + rest) == "'" + rest;
      CloseSingle(rest);
      PrependNothing(tail);
      assert Quoteds(s) == [];
    } else {
      ScanEscaped(s[1..], rest);
      ScanEscapedCons(s[0], Quoteds(s[1..]), Escape(s[1..]) + ("'" + rest), tail);
      assert Escape(s) + ("'" + rest) == EscapeOne(s[0]) + (Escape(s[1..]) + ("'" + rest));
      assert [Quoted(s[0])] + Quoteds(s[1..]) == Quoteds(s);
    }
  }

  lemma {:induction false} ScanSingleQuoted(s: string, rest: string)
    ensures ScanWord("'" + Escape(s) + "'" + rest, Unquoted) == Prepend(Quoteds(s), ScanWord(rest, Unquoted))
  {
    var text := Escape(s) + ("'" + rest);
    assert "'" + Escape(s) + "'" + rest == "'" + text;
    OpenSingle(text);
    ScanEscaped(s, rest);
  }

  lemma {:induction false} QuoteShape(s: string)
    ensures if s != "" && AllSafe(s)
            then Quote(s) == s && QuoteWord(s) == Bares(s) && AllPlain(s)
            else Quote(s) == "'" + Escape(s) + "'" && QuoteWord(s) == Quoteds(s)
  {
    if s == "" { assert Escape(s) == ""; }
  }

  /** Reading a quoted value yields its characters, whatever they are, and stops right after it. */
  lemma {:induction false} ScanQuote(s: string, rest: string)
    ensures ScanWord(Quote(s) + rest, Unquoted) == Prepend(QuoteWord(s), ScanWord(rest, Unquoted))
  {
    QuoteShape(s);
    if s != "" && AllSafe(s) {
      ScanPlain(s, rest);
    } else {
      ScanSingleQuoted(s, rest);
    }
  }

  lemma {:induction false} ExpandAppend(a: Word, b: Word, last: nat)
    ensures Expand(a + b, last) == Expand(a, last) + Expand(b, last)
  {
    if a == [] {
      assert a + b == b;
    } else {
      assert (a + b)[1..] == a[1..] + b;
      ExpandAppend(a[1..], b, last);
    }
  }

  lemma {:induction false} ExpandQuoteds(s: string, last: nat)
    ensures Expand(Bares(s), last) == s && Expand(Quoteds(s), last) == s
  {
    if s != "" {
      assert Bares(s)[1..] == Bares(s[1..]) && Quoteds(s)[1..] == Quoteds(s[1..]);
      ExpandQuoteds(s[1..], last);
    }
  }

  // ----- items: the words and operators the builders put between blanks

  datatype Item =
    | Text(text: string)                   // printed as it is
    | Value(prefix: string, value: string) // a prefix printed as it is, glued to a quoted value
    | Symbol(op: string)                   // "|" or "||"
    | OpenTest                             // [
    | LastStatus                           // $?
    | ErrToOut                             // 2>&1

  function ShowItem(item: Item): string {
    match item
    case Text(t) => t
    case Value(p, v) => p + Quote(v)
    case Symbol(op) => op
    case OpenTest => "["
    case LastStatus => "$?"
    case ErrToOut => "2>&1"
  }

  /** The tokens of an item, in front of those that follow. */
  function Feed(item: Item, rest: TokenList): TokenList {
    match item
    case Text(t) => More(WordToken(Bares(t)), rest)
    case Value(p, v) => More(WordToken(Bares(p) + QuoteWord(v)), rest)
    case Symbol(op) => More(Operator(op), rest)
    case OpenTest => More(WordToken([Bare('[')]), rest)
    case LastStatus => More(WordToken([Status]), rest)
    case ErrToOut => More(IoNumber("2"), More(Operator(">&"), More(WordToken([Bare('1')]), rest)))
  }

  predicate GoodItem(item: Item) {
    match item
    case Text(t) => t != "" && AllPlain(t)
    case Value(p, _) => AllPlain(p)
    case Symbol(op) => op == "|" || op == "||"
    case _ => true
  }

  predicate GoodItems(items: seq<Item>) { forall i | 0 <= i < |items| :: GoodItem(items[i]) }

  function ShowItems(items: seq<Item>): (r: seq<string>)
    ensures |r| == |items|
  {
    seq(|items|, i requires 0 <= i < |items| => ShowItem(items[i]))
  }

  /** The printed line: items set apart by single blanks. */
  function Show(items: seq<Item>): string { Join(" ", ShowItems(items)) }

  function FeedAll(items: seq<Item>, rest: TokenList): TokenList {
    if items == [] then rest else Feed(items[0], FeedAll(items[1..], rest))
  }

  function Before(item: Item, rest: Option<TokenList>): Option<TokenList> {
    match rest case None => None case Some(ts) => Some(Feed(item, ts))
  }

  /** What follows an item on a line: nothing, or a blank. */
  predicate EndsItem(rest: string) { rest == "" || rest[0] == ' ' }

  lemma {:induction false} WordThenBlank(s: string, w: Word, rest: string)
    requires s != "" && !IsBlank(s[0]) && !IsOperatorStart(s[0]) && s[0] != '#'
    requires ScanWord(s + rest, Unquoted) == Scanned(w, rest) && EndsItem(rest)
    ensures Tokens(s + rest) == Cons(WordToken(w), Tokens(rest))
  {
    assert (s + rest)[0] == s[0];
  }

  lemma {:induction false} ScanValue(p: string, v: string, rest: string)
    requires AllPlain(p) && EndsItem(rest)
    ensures ScanWord(p + Quote(v) + rest, Unquoted) == Scanned(Bares(p) + QuoteWord(v), rest)
  {
    assert p + Quote(v) + rest == p + (Quote(v) + rest);
    ScanPlain(p, Quote(v) + rest);
    ScanQuote(v, rest);
    assert ScanWord(rest, Unquoted) == Scanned([], rest);
    assert QuoteWord(v) + [] == QuoteWord(v);
  }

  lemma {:induction false} TokensOfValue(p: string, v: string, rest: string)
    requires AllPlain(p) && EndsItem(rest)
    ensures Tokens(p + Quote(v) + rest) == Cons(WordToken(Bares(p) + QuoteWord(v)), Tokens(rest))
  {
    ScanValue(p, v, rest);
    WordThenBlank(p + Quote(v), Bares(p) + QuoteWord(v), rest);
  }

  lemma {:induction false} TokensOfText(t: string, rest: string)
    requires t != "" && AllPlain(t) && EndsItem(rest)
    ensures Tokens(t + rest) == Cons(WordToken(Bares(t)), Tokens(rest))
  {
    ScanPlain(t, rest);
    assert ScanWord(rest, Unquoted) == Scanned([], rest);
    assert Bares(t) + [] == Bares(t);
    WordThenBlank(t, Bares(t), rest);
  }

  lemma {:induction false} TokensOfSymbol(op: string, rest: string)
    requires op == "|" || op == "||"
    requires EndsItem(rest)
    ensures Tokens(op + rest) == Cons(Operator(op), Tokens(rest))
  {
    var s := op + rest;
    assert s[0] == '|';
    if op == "||" {
      assert s[..2] == "||" && s[2..] == rest;
    } else {
      assert |s| > 1 ==> s[..2] == "| ";
      assert s[..1] == "|" && s[1..] == rest;
    }
  }

  lemma {:induction false} TokensOfStatus(rest: string)
    requires EndsItem(rest)
    ensures Tokens("$?" + rest) == Cons(WordToken([Status]), Tokens(rest))
  {
    var s := "$?" + rest;
    assert s[2..] == rest && ScanWord(rest, Unquoted) == Scanned([], rest);
    WordThenBlank("$?", [Status], rest);
  }

  lemma {:induction false} TokensOfOpenTest(rest: string)
    requires EndsItem(rest)
    ensures Tokens("[" + rest) == Cons(WordToken([Bare('[')]), Tokens(rest))
  {
    var s := "[" + rest;
    assert s[1..] == rest && ScanWord(rest, Unquoted) == Scanned([], rest);
    WordThenBlank("[", [Bare('[')], rest);
  }

  lemma {:induction false} TokensOfDup(rest: string)
    requires EndsItem(rest)
    ensures Tokens(">&1" + rest) == Cons(Operator(">&"), Cons(WordToken([Bare('1')]), Tokens(rest)))
  {
    var s := ">&1" + rest;
    assert s[..2] == ">&" && s[2..] == "1" + rest;
    TokensOfText("1", rest);
    assert Bares("1") == [Bare('1')];
  }

  lemma {:induction false} TokensOfTwo(rest: string)
    ensures Tokens("2>&1" + rest) == Cons(IoNumber("2"), Tokens(">&1" + rest))
  {
    var s := "2>&1" + rest;
    var after := ">&1" + rest;
    assert s[1..] == after;
    assert ScanWord(after, Unquoted) == Scanned([], after);
    assert ScanWord(s, Unquoted) == Scanned([Bare('2')], after);
    assert [Bare('2')][1..] == [];
    assert Expand([Bare('2')], 0) == "2" + "" == "2";
  }

  lemma {:induction false} TokensOfItem(item: Item, rest: string)
    requires GoodItem(item) && EndsItem(rest)
    ensures Tokens(ShowItem(item) + rest) == Before(item, Tokens(rest))
  {
    match item {
      case Text(t) => TokensOfText(t, rest);
      case Value(p, v) => TokensOfValue(p, v, rest);
      case Symbol(op) => TokensOfSymbol(op, rest);
      case OpenTest => TokensOfOpenTest(rest);
      case LastStatus => TokensOfStatus(rest);
      case ErrToOut =>
        TokensOfTwo(rest);
        TokensOfDup(rest);
    }
  }

  /** Tokenising a printed line gives back the tokens of its items, for all values in them. */
  lemma {:induction false} TokensOfShow(items: seq<Item>)
    requires GoodItems(items)
    ensures Tokens(Show(items)) == Some(FeedAll(items, End))
  {
    if |items| == 1 {
      assert ShowItems(items)[0] + "" == ShowItem(items[0]);
      TokensOfItem(items[0], "");
    } else if items != [] {
      var rest := " " + Show(items[1..]);
      assert ShowItems(items)[1..] == ShowItems(items[1..]);
      assert Show(items) == ShowItem(items[0]) + rest;
      TokensOfItem(items[0], rest);
      assert rest[1..] == Show(items[1..]);
      TokensOfShow(items[1..]);
    }
  }

  // ----- shlex.quote, in literals

  /** The characters that need no quoting. */
  lemma {:induction false} SafeAre(c: char)
    ensures IsSafe(c) <==> 'a' <= c <= 'z' || 'A' <= c <= 'Z' || '0' <= c <= '9' || c in "_@%+=:,./-"
  {}

  /** A quoted text is closed before each quote of its own and opened again behind it. */
  lemma {:induction false} QuoteIs(s: string)
    ensures Quote("") == "''"
    ensures s != "" && (forall i | 0 <= i < |s| :: IsSafe(s[i])) ==> Quote(s) == s
    ensures (exists i :: 0 <= i < |s| && !IsSafe(s[i])) ==> Quote(s) == "'" + Escape(s) + "'"
  {}

  lemma {:induction false} EscapeIs(before: string, after: string)
    ensures '\'' !in before ==> Escape(before) == before
    ensures Escape(before + "'" + after) == Escape(before) + ("'\"'\"'" + Escape(after))
  {
    if '\'' !in before { EscapeNothing(before); }
    EscapeSum(before, "'" + after);
    assert before + "'" + after == before + ("'" + after);
    assert ("'" + after)[1..] == after;
  }

  lemma {:induction false} EscapeNothing(s: string)
    requires '\'' !in s
    ensures Escape(s) == s
  {
    if s != "" {
      EscapeNothing(s[1..]);
      assert s[0] in s && s == [s[0]] + s[1..];
    }
  }

  lemma {:induction false} EscapeSum(a: string, b: string)
    ensures Escape(a + b) == Escape(a) + Escape(b)
  {
    if a == "" {
      assert a + b == b;
    } else {
      assert (a + b)[1..] == a[1..] + b;
      EscapeSum(a[1..], b);
    }
  }
}
