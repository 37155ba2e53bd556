/**
 The part of the POSIX shell that the printed commands meet (IEEE Std 1003.1-2017, Shell Command
 Language): quoting (2.2), token recognition (2.3), simple commands (2.9.1), pipelines (2.9.2) and
 AND-OR lists (2.9.3). A construct outside this part makes the reader fail, it is never guessed at.
 */
module Shell {
  import opened Wrappers
  import opened Text

  // ----- words

  /** One character of a word, before expansion: unquoted, quoted, or the parameter `$?`. */
  datatype Piece = Bare(c: char) | Quoted(c: char) | Status

  type Word = seq<Piece>

  datatype Token = WordToken(word: Word) | Operator(op: string) | IoNumber(fd: string)

  datatype TokenList = End | More(head: Token, tail: TokenList)
  {
    function Length(): nat { match this case End => 0 case More(_, t) => 1 + t.Length() }
  }

  datatype Mode = Unquoted | Single | Double

  predicate IsBlank(c: char) { c == ' ' || c == '\t' }

  predicate IsOperatorStart(c: char) {
    c == '|' || c == '&' || c == ';' || c == '(' || c == ')' || c == '<' || c == '>' || c == '\n'
  }

  predicate EndsWord(rest: string) { rest == "" || IsBlank(rest[0]) || IsOperatorStart(rest[0]) }

  datatype Scan = Stuck | Scanned(word: Word, rest: string)

  function Push(p: Piece, s: Scan): Scan {
    match s case Stuck => Stuck case Scanned(w, rest) => Scanned([p] + w, rest)
  }

  /** Unquoted characters that would be an expansion or a pattern; not part of this model. */
  predicate IsSpecial(c: char) {
    c == '\\' || c == '`' || c == '$' || c == '*' || c == '?' || c == '[' || c == '~'
  }

  /** Reads the rest of a word. */
  function ScanWord(s: string, mode: Mode): Scan
    decreases |s|
  {
    match mode
    case Unquoted =>
      if EndsWord(s) then Scanned([], s)
      else if s[0] == '\'' then ScanWord(s[1..], Single)
      else if s[0] == '"' then ScanWord(s[1..], Double)
      else if s[0] == '$' && |s| > 1 && s[1] == '?' then Push(Status, ScanWord(s[2..], Unquoted))
      else if s[0] == '[' && EndsWord(s[1..]) then Push(Bare('['), ScanWord(s[1..], Unquoted))
      else if IsSpecial(s[0]) then Stuck
      else Push(Bare(s[0]), ScanWord(s[1..], Unquoted))
    case Single =>
      if s == "" then Stuck
      else if s[0] == '\'' then ScanWord(s[1..], Unquoted)
      else Push(Quoted(s[0]), ScanWord(s[1..], Single))
    case Double =>
      if s == "" || s[0] == '$' || s[0] == '`' || s[0] == '\\' then Stuck
      else if s[0] == '"' then ScanWord(s[1..], Unquoted)
      else Push(Quoted(s[0]), ScanWord(s[1..], Double))
  }

  lemma {:induction false} ScanShrinks(s: string, mode: Mode)
    ensures ScanWord(s, mode).Scanned? ==> |ScanWord(s, mode).rest| <= |s|
    ensures ScanWord(s, mode).Scanned? && mode == Unquoted && !EndsWord(s) ==> |ScanWord(s, mode).rest| < |s|
    decreases |s|
  {
    if s != "" {
      ScanShrinks(s[1..], Unquoted);
      ScanShrinks(s[1..], Single);
      ScanShrinks(s[1..], Double);
      if |s| > 1 { ScanShrinks(s[2..], Unquoted); }
    }
  }

  // ----- tokens

  const TWO_CHARACTER_OPERATORS := ["||", "&&", ";;", "<<", ">>", "<&", ">&", "<>", ">|"]

  function OperatorLength(s: string): (n: nat)
    requires s != ""
    ensures 1 <= n <= |s|
  {
    if |s| > 1 && s[..2] in TWO_CHARACTER_OPERATORS then 2 else 1
  }

  function SkipComment(s: string): (r: string)
    ensures |r| <= |s|
  {
    if s == "" || s[0] == '\n' then s else SkipComment(s[1..])
  }

  function Cons(t: Token, rest: Option<TokenList>): Option<TokenList> {
    match rest case None => None case Some(ts) => Some(More(t, ts))
  }

  /** An unquoted number in front of a redirection operator is a file descriptor. */
  predicate IsIoNumber(w: Word, rest: string) {
    && w != [] && (forall i | 0 <= i < |w| :: w[i].Bare? && IsDigit(w[i].c))
    && rest != "" && (rest[0] == '<' || rest[0] == '>')
  }

  /** The characters of a word once `$?` is replaced and the quotes are gone. */
  function Expand(w: Word, last: nat): string {
    if w == [] then ""
    else (match w[0] case Bare(c) => [c] case Quoted(c) => [c] case Status => NatStr(last)) + Expand(w[1..], last)
  }

  function WordOrNumber(w: Word, rest: string): Token {
    if IsIoNumber(w, rest) then IoNumber(Expand(w, 0)) else WordToken(w)
  }

  function Tokens(s: string): Option<TokenList>
    decreases |s|
  {
    if s == "" then Some(End)
    else if IsBlank(s[0]) then Tokens(s[1..])
    else if IsOperatorStart(s[0]) then
      Cons(Operator(s[..OperatorLength(s)]), Tokens(s[OperatorLength(s)..]))
    else if s[0] == '#' then Tokens(SkipComment(s[1..]))
    else
      ScanShrinks(s, Unquoted);
      match ScanWord(s, Unquoted)
      case Stuck => None
      case Scanned(w, rest) => Cons(WordOrNumber(w, rest), Tokens(rest))
  }

  // ----- grammar

  datatype Redirect = Redirect(fd: string, op: string, target: Word)

  datatype Assign = Assign(name: string, value: Word)

  datatype Simple = Simple(assigns: seq<Assign>, words: seq<Word>, redirects: seq<Redirect>)

  datatype Connector = AndIf | OrIf

  type Pipeline = seq<Simple>

  datatype Link = Link(connector: Connector, pipeline: Pipeline)

  datatype AndOr = AndOr(first: Pipeline, rest: seq<Link>)

  datatype Parsed<+T> = SyntaxError | Parsed(tree: T, left: TokenList)

  predicate IsNameStart(c: char) { 'a' <= c <= 'z' || 'A' <= c <= 'Z' || c == '_' }

  /** The length of an unquoted name that starts a word. */
  function NameLength(w: Word): (n: nat)
    ensures n <= |w|
  {
    if w != [] && w[0].Bare? && (IsNameStart(w[0].c) || IsDigit(w[0].c)) then 1 + NameLength(w[1..]) else 0
  }

  predicate IsAssignment(w: Word) {
    var n := NameLength(w);
    0 < n < |w| && !IsDigit(w[0].c) && w[n] == Bare('=')
  }

  const RESERVED := ["!", "{", "}", "case", "do", "done", "elif", "else", "esac", "fi", "for", "if",
                     "in", "then", "until", "while"]

  predicate IsReserved(w: Word) {
    (forall i | 0 <= i < |w| :: w[i].Bare?) && Expand(w, 0) in RESERVED
  }

  predicate IsRedirection(op: string) { op in ["<", ">", ">>", "<&", ">&", "<>", ">|"] }

  function Empty(): Simple { Simple([], [], []) }

  /** A simple command, read onto what `acc` already holds of it. */
  function ParseSimple(ts: TokenList, acc: Simple): (r: Parsed<Simple>)
    ensures r.Parsed? ==> r.left.Length() <= ts.Length()
    ensures r.Parsed? && acc == Empty() ==> r.left.Length() < ts.Length()
    decreases ts
  {
    match ts
    case End => if acc == Empty() then SyntaxError else Parsed(acc, ts)
    case More(WordToken(w), tail) =>
      if acc.words == [] && IsAssignment(w) then
        var n := NameLength(w);
        ParseSimple(tail, acc.(assigns := acc.assigns + [Assign(Expand(w[..n], 0), w[n + 1..])]))
      else if acc == Empty() && IsReserved(w) then SyntaxError
      else ParseSimple(tail, acc.(words := acc.words + [w]))
    case More(IoNumber(fd), More(Operator(op), More(WordToken(target), tail))) =>
      assert ts.tail.tail.Length() == 1 + tail.Length();
      if !IsRedirection(op) then SyntaxError
      else ParseSimple(tail, acc.(redirects := acc.redirects + [Redirect(fd, op, target)]))
    case More(IoNumber(_), _) => SyntaxError
    case More(Operator(op), tail) =>
      if !IsRedirection(op) then
        if acc == Empty() then SyntaxError else Parsed(acc, ts)
      else if tail.More? && tail.head.WordToken? then
        ParseSimple(tail.tail, acc.(redirects := acc.redirects + [Redirect("", op, tail.head.word)]))
      else SyntaxError
  }

  function ParsePipeline(ts: TokenList): (r: Parsed<Pipeline>)
    ensures r.Parsed? ==> r.left.Length() < ts.Length()
    decreases ts.Length()
  {
    match ParseSimple(ts, Empty())
    case SyntaxError => SyntaxError
    case Parsed(s, left) =>
      if left.More? && left.head == Operator("|") then
        match ParsePipeline(left.tail)
        case SyntaxError => SyntaxError
        case Parsed(p, left') => Parsed([s] + p, left')
      else Parsed([s], left)
  }

  /** The links of an AND-OR list; nothing may follow them. */
  function ParseLinks(ts: TokenList): Option<seq<Link>>
    decreases ts.Length()
  {
    if ts.End? then Some([])
    else if ts.head != Operator("&&") && ts.head != Operator("||") then None
    else
      match ParsePipeline(ts.tail)
      case SyntaxError => None
      case Parsed(p, left) =>
        match ParseLinks(left)
        case None => None
        case Some(links) => Some([Link(if ts.head == Operator("&&") then AndIf else OrIf, p)] + links)
  }

  function Parse(text: string): Option<AndOr> {
    match Tokens(text)
    case None => None
    case Some(ts) =>
      match ParsePipeline(ts)
      case SyntaxError => None
      case Parsed(p, left) =>
        match ParseLinks(left)
        case None => None
        case Some(links) => Some(AndOr(p, links))
  }

  // ----- execution

  datatype Binding = Binding(name: string, value: string)

  datatype Invocation = Invocation(env: seq<Binding>, argv: seq<string>, stdin: string)

  /** What a utility does: its two streams, the order in which they mix on one channel, its status. */
  datatype Outcome = Outcome(out: string, err: string, mixed: string, status: nat)

  /** The utilities of the remote host. */
  type World = Invocation -> Outcome

  datatype Effect = Effect(out: string, status: nat)

  function ExpandAll(ws: seq<Word>, last: nat): (r: seq<string>)
    ensures |r| == |ws|
  {
    seq(|ws|, i requires 0 <= i < |ws| => Expand(ws[i], last))
  }

  function Bindings(assigns: seq<Assign>, last: nat): (r: seq<Binding>)
    ensures |r| == |assigns|
  {
    seq(|assigns|, i requires 0 <= i < |assigns| => Binding(assigns[i].name, Expand(assigns[i].value, last)))
  }

  /** The test utility, as far as integer equality. */
  function TestStatus(argv: seq<string>): nat {
    if |argv| == 5 && argv[2] == "-eq" && argv[4] == "]" && PyInt(argv[1]).Some? && PyInt(argv[3]).Some?
    then if PyInt(argv[1]) == PyInt(argv[3]) then 0 else 1
    else 2
  }

  function RunSimple(world: World, s: Simple, stdin: string, last: nat): Option<Effect> {
    var argv := ExpandAll(s.words, last);
    if argv == [] then None
    else if argv[0] == "[" then
      if s.redirects == [] then Some(Effect("", TestStatus(argv))) else None
    else
      var o := world(Invocation(Bindings(s.assigns, last), argv, stdin));
      if s.redirects == [] then Some(Effect(o.out, o.status))
      else if s.redirects == [Redirect("2", ">&", [Bare('1')])] then Some(Effect(o.mixed, o.status))
      else None
  }

  /** Each stage reads what the one before it wrote; the status is the last stage's. */
  function RunPipeline(world: World, p: Pipeline, stdin: string, last: nat): Option<Effect> {
    if p == [] then None
    else
      match RunSimple(world, p[0], stdin, last)
      case None => None
      case Some(e) => if |p| == 1 then Some(e) else RunPipeline(world, p[1..], e.out, last)
  }

  function RunLinks(world: World, links: seq<Link>, sofar: Effect): Option<Effect> {
    if links == [] then Some(sofar)
    else if (links[0].connector == AndIf) != (sofar.status == 0) then RunLinks(world, links[1..], sofar)
    else
      match RunPipeline(world, links[0].pipeline, "", sofar.status)
      case None => None
      case Some(e) => RunLinks(world, links[1..], Effect(sofar.out + e.out, e.status))
  }

  /** Runs a command line with empty input: the text it writes and its exit status. */
  function Run(world: World, text: string): Option<Effect> {
    match Parse(text)
    case None => None
    case Some(tree) =>
      match RunPipeline(world, tree.first, "", 0)
      case None => None
      case Some(e) => RunLinks(world, tree.rest, e)
  }

  /** The argument vector of a text that is one simple command under LC_ALL=C and nothing else. */
  function ArgvUnderC(text: string): Option<seq<string>> {
    match Parse(text)
    case None => None
    case Some(tree) =>
      if |tree.first| != 1 || tree.rest != [] || tree.first[0].redirects != []
         || Bindings(tree.first[0].assigns, 0) != [Binding("LC_ALL", "C")]
      then None
      else Some(ExpandAll(tree.first[0].words, 0))
  }

  // ----- the characters and words that mean something to the shell, in literals

  lemma {:induction false} CharactersAre(c: char, rest: string)
    ensures IsBlank(c) <==> c in " \t"
    ensures IsOperatorStart(c) <==> c in "|&;()<>\n"
    ensures IsSpecial(c) <==> c in "\\`$*?[~"
    ensures c in "$`\\" ==> ScanWord([c] + rest, Double) == Stuck
    ensures IsNameStart(c) <==> 'a' <= c <= 'z' || 'A' <= c <= 'Z' || c in "_"
  {}

  /** The operators of two characters, and those that redirect. */
  lemma {:induction false} OperatorsAre(op: string)
    ensures op in TWO_CHARACTER_OPERATORS <==> op in {"||", "&&", ";;", "<<", ">>", "<&", ">&", "<>", ">|"}
    ensures IsRedirection(op) <==> op in {"<", ">", ">>", "<&", ">&", "<>", ">|"}
  {}

  lemma {:induction false} ReservedAre(name: string)
    ensures name in RESERVED <==>
            name in {"!", "{", "}", "case", "do", "done", "elif", "else", "esac", "fi", "for", "if", "in", "then",
                     "until", "while"}
  {}
}
