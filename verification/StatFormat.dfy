/**
 The scanner for stat's --format strings (linux_info_mcp/tools/fs.py): a backtracking regular
 expression applied at every percent sign, against the grammar it stands for.
 */
module StatFormat {
  import opened Wrappers
  import opened Text

  const MAX_FORMAT := 512

  predicate IsFlag(c: char) { c == '-' || c == '#' || c == '0' || c == '+' || c == ' ' || c == '\'' }

  predicate IsLetter(c: char) { 'a' <= c <= 'z' || 'A' <= c <= 'Z' }

  // ----- the regular expression %(%|[-#0+ ']*[0-9]{0,3}(?:\.[0-9]{0,9})?(Hd|Ld|Hr|Lr|[A-Za-z]))

  /** Where a directive's specifier starts and ends. */
  datatype Spec = Spec(start: nat, end: nat)

  function FlagRun(v: string, k: nat): (n: nat)
    ensures k <= |v| ==> k + n <= |v|
    decreases |v| - k
  {
    if k < |v| && IsFlag(v[k]) then 1 + FlagRun(v, k + 1) else 0
  }

  function DigitRun(v: string, k: nat): (n: nat)
    ensures k <= |v| ==> k + n <= |v|
    decreases |v| - k
  {
    if k < |v| && IsDigit(v[k]) then 1 + DigitRun(v, k + 1) else 0
  }

  /** Hd|Ld|Hr|Lr|[A-Za-z], in this order. */
  function MatchSpec(v: string, c: nat): Option<Spec> {
    if c + 1 < |v| && (v[c] == 'H' || v[c] == 'L') && (v[c + 1] == 'd' || v[c + 1] == 'r') then Some(Spec(c, c + 2))
    else if c < |v| && IsLetter(v[c]) then Some(Spec(c, c + 1))
    else None
  }

  /** [0-9]{0,9} with `n` digits taken, then fewer. */
  function TryPrecision(v: string, k: nat, n: nat): Option<Spec> {
    match MatchSpec(v, k + n)
    case Some(s) => Some(s)
    case None => if n == 0 then None else TryPrecision(v, k, n - 1)
  }

  /** The optional precision: with it first, then without. */
  function MatchPrecision(v: string, b: nat): Option<Spec> {
    var with := if b < |v| && v[b] == '.' then TryPrecision(v, b + 1, Min(9, DigitRun(v, b + 1))) else None;
    if with.Some? then with else MatchSpec(v, b)
  }

  function TryWidth(v: string, a: nat, n: nat): Option<Spec> {
    match MatchPrecision(v, a + n)
    case Some(s) => Some(s)
    case None => if n == 0 then None else TryWidth(v, a, n - 1)
  }

  function TryFlags(v: string, k: nat, n: nat): Option<Spec> {
    match TryWidth(v, k + n, Min(3, DigitRun(v, k + n)))
    case Some(s) => Some(s)
    case None => if n == 0 then None else TryFlags(v, k, n - 1)
  }

  datatype Match = NoMatch | Percent | Directive(spec: Spec)

  /** _STAT_SPEC_RE.match(value, i) at a percent sign. */
  function MatchAt(v: string, i: nat): Match {
    if i + 1 < |v| && v[i + 1] == '%' then Percent
    else match TryFlags(v, i + 1, FlagRun(v, i + 1))
      case None => NoMatch
      case Some(s) => Directive(s)
  }

  // ----- all ways to read a directive

  /** Flags up to `a`, width up to `b`, precision up to `c`, and a specifier up to `e`. */
  predicate Reads(v: string, k: nat, a: nat, b: nat, c: nat, e: nat) {
    && k <= a <= b <= c < e <= |v|
    && (forall j | k <= j < a :: IsFlag(v[j]))
    && b - a <= 3 && (forall j | a <= j < b :: IsDigit(v[j]))
    && (c == b || (v[b] == '.' && c - b <= 10 && forall j | b < j < c :: IsDigit(v[j])))
    && IsSpec(v[c..e])
  }

  predicate IsSpec(s: string) {
    || (|s| == 2 && (s[0] == 'H' || s[0] == 'L') && (s[1] == 'd' || s[1] == 'r'))
    || (|s| == 1 && IsLetter(s[0]))
  }

  lemma {:induction false} FlagRunExact(v: string, k: nat)
    requires k <= |v|
    ensures forall j | k <= j < k + FlagRun(v, k) :: IsFlag(v[j])
    ensures k + FlagRun(v, k) < |v| ==> !IsFlag(v[k + FlagRun(v, k)])
    decreases |v| - k
  {
    if k < |v| && IsFlag(v[k]) { FlagRunExact(v, k + 1); }
  }

  lemma {:induction false} DigitRunExact(v: string, k: nat)
    requires k <= |v|
    ensures forall j | k <= j < k + DigitRun(v, k) :: IsDigit(v[j])
    ensures k + DigitRun(v, k) < |v| ==> !IsDigit(v[k + DigitRun(v, k)])
    decreases |v| - k
  {
    if k < |v| && IsDigit(v[k]) { DigitRunExact(v, k + 1); }
  }

  lemma {:induction false} MatchSpecReads(v: string, c: nat)
    ensures MatchSpec(v, c).Some? ==>
              var s := MatchSpec(v, c).value; s.start == c < s.end <= |v| && IsSpec(v[c..s.end])
    ensures forall e | c < e <= |v| && IsSpec(v[c..e]) :: MatchSpec(v, c).Some?
  {}

  // What the search finds is a way to read the directive.

  lemma {:induction false} PrecisionReads(v: string, b: nat, n: nat) returns (c: nat)
    requires b + 1 + n <= |v| && n <= 9 && v[b] == '.' && (forall j | b < j <= b + n :: IsDigit(v[j]))
    requires TryPrecision(v, b + 1, n).Some?
    ensures var s := TryPrecision(v, b + 1, n).value;
            b < c == s.start < s.end <= |v| && c - b <= 10 && (forall j | b < j < c :: IsDigit(v[j]))
            && IsSpec(v[c..s.end]) && MatchSpec(v, c) == Some(s)
  {
    MatchSpecReads(v, b + 1 + n);
    if MatchSpec(v, b + 1 + n).Some? {
      c := b + 1 + n;
    } else {
      c := PrecisionReads(v, b, n - 1);
    }
  }

  lemma {:induction false} WidthEndReads(v: string, k: nat, a: nat, b: nat)
    requires k <= a <= b <= |v| && b - a <= 3
    requires (forall j | k <= j < a :: IsFlag(v[j])) && (forall j | a <= j < b :: IsDigit(v[j]))
    requires MatchPrecision(v, b).Some?
    ensures var s := MatchPrecision(v, b).value; Reads(v, k, a, b, s.start, s.end) && MatchSpec(v, s.start) == Some(s)
  {
    MatchSpecReads(v, b);
    if b < |v| && v[b] == '.' {
      DigitRunExact(v, b + 1);
      var n := Min(9, DigitRun(v, b + 1));
      if TryPrecision(v, b + 1, n).Some? {
        var c := PrecisionReads(v, b, n);
      }
    }
  }

  lemma {:induction false} WidthReads(v: string, k: nat, a: nat, n: nat) returns (b: nat)
    requires k <= a && a + n <= |v| && n <= 3
    requires (forall j | k <= j < a :: IsFlag(v[j])) && (forall j | a <= j < a + n :: IsDigit(v[j]))
    requires TryWidth(v, a, n).Some?
    ensures var s := TryWidth(v, a, n).value; Reads(v, k, a, b, s.start, s.end) && MatchSpec(v, s.start) == Some(s)
  {
    if MatchPrecision(v, a + n).Some? {
      b := a + n;
      WidthEndReads(v, k, a, b);
    } else {
      b := WidthReads(v, k, a, n - 1);
    }
  }

  lemma {:induction false} FlagsRead(v: string, k: nat, n: nat) returns (a: nat, b: nat)
    requires k + n <= |v| && (forall j | k <= j < k + n :: IsFlag(v[j]))
    requires TryFlags(v, k, n).Some?
    ensures var s := TryFlags(v, k, n).value; Reads(v, k, a, b, s.start, s.end) && MatchSpec(v, s.start) == Some(s)
  {
    DigitRunExact(v, k + n);
    var w := Min(3, DigitRun(v, k + n));
    if TryWidth(v, k + n, w).Some? {
      a := k + n;
      b := WidthReads(v, k, a, w);
    } else {
      a, b := FlagsRead(v, k, n - 1);
    }
  }

  // Whenever there is a way to read the directive, the search finds one.

  lemma {:induction false} PrecisionFinds(v: string, k: nat, n: nat, m: nat)
    requires m <= n && MatchSpec(v, k + m).Some?
    ensures TryPrecision(v, k, n).Some?
  {
    if m < n { PrecisionFinds(v, k, n - 1, m); }
  }

  lemma {:induction false} WidthFinds(v: string, a: nat, n: nat, m: nat)
    requires m <= n && MatchPrecision(v, a + m).Some?
    ensures TryWidth(v, a, n).Some?
  {
    if m < n { WidthFinds(v, a, n - 1, m); }
  }

  lemma {:induction false} FlagsFind(v: string, k: nat, n: nat, m: nat)
    requires m <= n && TryWidth(v, k + m, Min(3, DigitRun(v, k + m))).Some?
    ensures TryFlags(v, k, n).Some?
  {
    if m < n { FlagsFind(v, k, n - 1, m); }
  }

  lemma {:induction false} RunAtLeast(v: string, k: nat, n: nat)
    requires k + n <= |v|
    ensures (forall j | k <= j < k + n :: IsDigit(v[j])) ==> n <= DigitRun(v, k)
    ensures (forall j | k <= j < k + n :: IsFlag(v[j])) ==> n <= FlagRun(v, k)
  {
    DigitRunExact(v, k);
    FlagRunExact(v, k);
  }

  lemma {:induction false} SearchFinds(v: string, k: nat, a: nat, b: nat, c: nat, e: nat)
    requires Reads(v, k, a, b, c, e)
    ensures TryFlags(v, k, FlagRun(v, k)).Some?
  {
    PrecisionFound(v, b, c, e);
    RunAtLeast(v, a, b - a);
    WidthFinds(v, a, Min(3, DigitRun(v, a)), b - a);
    RunAtLeast(v, k, a - k);
    FlagsFind(v, k, FlagRun(v, k), a - k);
  }

  lemma {:induction false} PrecisionFound(v: string, b: nat, c: nat, e: nat)
    requires b <= c < e <= |v| && IsSpec(v[c..e])
    requires c == b || (v[b] == '.' && c - b <= 10 && forall j | b < j < c :: IsDigit(v[j]))
    ensures MatchPrecision(v, b).Some?
  {
    MatchSpecReads(v, c);
    if c != b {
      RunAtLeast(v, b + 1, c - b - 1);
      PrecisionFinds(v, b + 1, Min(9, DigitRun(v, b + 1)), c - b - 1);
    }
  }

  /** However a directive is split, its specifier starts at its first letter. */
  lemma {:induction false} SpecStartIsUnique(v: string, k: nat, a: nat, b: nat, c: nat, e: nat, a': nat, b': nat,
      c': nat, e': nat)
    requires Reads(v, k, a, b, c, e) && Reads(v, k, a', b', c', e')
    ensures c == c'
  {
    assert v[c..e][0] == v[c] && v[c'..e'][0] == v[c'];
    assert forall j | k <= j < c :: !IsLetter(v[j]);
    assert forall j | k <= j < c' :: !IsLetter(v[j]);
  }

  // ----- the scanner

  const FILE_LETTERS := "aAbBCdDfFgGhimnNostTuUwWxXyYzZrR"

  const FILE_SYSTEM_LETTERS := "abcdfilnsStT"

  /** The letters that are specifiers of their own in a mode. */
  function Letters(fileSystem: bool): string { if fileSystem then FILE_SYSTEM_LETTERS else FILE_LETTERS }

  predicate Allowed(spec: string, fileSystem: bool) {
    if |spec| == 1 then spec[0] in Letters(fileSystem) else !fileSystem && IsSpec(spec)
  }

  /** A match is a way to read the directive, and moves the position forward. */
  lemma {:induction false} MatchReads(v: string, i: nat) returns (a: nat, b: nat)
    requires i < |v| && MatchAt(v, i).Directive?
    ensures var s := MatchAt(v, i).spec; Reads(v, i + 1, a, b, s.start, s.end) && i < s.start < s.end <= |v|
    ensures MatchSpec(v, MatchAt(v, i).spec.start) == Some(MatchAt(v, i).spec)
  {
    FlagRunExact(v, i + 1);
    a, b := FlagsRead(v, i + 1, FlagRun(v, i + 1));
  }

  lemma {:induction false} MatchAdvances(v: string, i: nat)
    requires i < |v| && MatchAt(v, i).Directive?
    ensures i < MatchAt(v, i).spec.start < MatchAt(v, i).spec.end <= |v|
  {
    var a, b := MatchReads(v, i);
  }

  /** The scan from position `pos`, one character or match at a time. */
  predicate ScanFrom(v: string, pos: nat, fileSystem: bool)
    requires pos <= |v|
    decreases |v| - pos
  {
    if pos == |v| then true
    else if v[pos] != '%' then ScanFrom(v, pos + 1, fileSystem)
    else match MatchAt(v, pos)
      case NoMatch => false
      case Percent => ScanFrom(v, pos + 2, fileSystem)
      case Directive(s) =>
        MatchAdvances(v, pos);
        Allowed(v[s.start..s.end], fileSystem) && ScanFrom(v, s.end, fileSystem)
  }

  lemma {:induction false} ScanSkips(v: string, pos: nat, i: nat, fileSystem: bool)
    requires pos <= i <= |v| && (forall j | pos <= j < i :: v[j] != '%')
    ensures ScanFrom(v, pos, fileSystem) == ScanFrom(v, i, fileSystem)
    decreases i - pos
  {
    if pos < i { ScanSkips(v, pos + 1, i, fileSystem); }
  }

  /** value.find("%", pos), with the length of the value for "not found". */
  function FindPercent(v: string, pos: nat): (i: nat)
    requires pos <= |v|
    ensures pos <= i <= |v| && (i < |v| ==> v[i] == '%') && (forall j | pos <= j < i :: v[j] != '%')
    decreases |v| - pos
  {
    if pos == |v| || v[pos] == '%' then pos else FindPercent(v, pos + 1)
  }

  /** The loop of _validate_stat_format over the directives of a format. */
  method CheckDirectives(value: string, fileSystem: bool) returns (r: Result<string>)
    ensures r.Ok? <==> ScanFrom(value, 0, fileSystem)
    ensures r.Ok? ==> r.value == value
  {
    var pos := 0;
    var i := FindPercent(value, 0);
    ScanSkips(value, 0, i, fileSystem);
    while i < |value|
      invariant pos <= i <= |value| && (i < |value| ==> value[i] == '%')
      invariant ScanFrom(value, 0, fileSystem) == ScanFrom(value, i, fileSystem)
      decreases |value| - i
    {
      match MatchAt(value, i) {
        case NoMatch =>
          return Raises(ValueError("format has invalid directive"));
        case Percent =>
          pos := i + 2;
        case Directive(s) =>
          MatchAdvances(value, i);
          if !Allowed(value[s.start..s.end], fileSystem) {
            return Raises(ValueError("format directive not allowed"));
          }
          pos := s.end;
      }
      i := FindPercent(value, pos);
      ScanSkips(value, pos, i, fileSystem);
    }
    r := Ok(value);
  }

  /** _validate_stat_format. */
  method ValidateStatFormat(value: string, fileSystem: bool) returns (r: Result<string>)
    ensures r.Ok? <==> value != "" && |value| <= 512 && NoUnsafe(value) && InLanguage(value, fileSystem)
    ensures r.Ok? ==> r.value == value
  {
    ScanIsLanguage(value, fileSystem);
    if value == "" { return Raises(ValueError("format must be a non-empty string")); }
    if |value| > MAX_FORMAT { return Raises(ValueError("format must be at most 512 characters")); }
    if !NoUnsafe(value) { return Raises(ValueError("format contains NUL byte or newline")); }
    r := CheckDirectives(value, fileSystem);
  }

  // ----- the grammar

  /** A piece of a format: a literal character, %%, or a directive. */
  datatype Piece =
    | Literal(c: char)
    | Escaped
    | Field(flags: string, width: string, precision: Option<string>, spec: string)

  function PrintPrecision(precision: Option<string>): string {
    match precision case None => "" case Some(digits) => "." + digits
  }

  function PrintPiece(p: Piece): string {
    match p
    case Literal(c) => [c]
    case Escaped => "%%"
    case Field(flags, width, precision, spec) => "%" + flags + width + PrintPrecision(precision) + spec
  }

  function Print(ps: seq<Piece>): string {
    if ps == [] then "" else PrintPiece(ps[0]) + Print(ps[1..])
  }

  predicate ShortDigits(s: string, most: nat) { |s| <= most && forall i | 0 <= i < |s| :: IsDigit(s[i]) }

  predicate GoodPiece(p: Piece, fileSystem: bool) {
    match p
    case Literal(c) => c != '%'
    case Escaped => true
    case Field(flags, width, precision, spec) =>
      && (forall i | 0 <= i < |flags| :: IsFlag(flags[i]))
      && ShortDigits(width, 3) && (precision.Some? ==> ShortDigits(precision.value, 9))
      && IsSpec(spec) && Allowed(spec, fileSystem)
  }

  predicate GoodPieces(ps: seq<Piece>, fileSystem: bool) {
    ps == [] || (GoodPiece(ps[0], fileSystem) && GoodPieces(ps[1..], fileSystem))
  }

  /** The formats a mode allows: the printed forms of sequences of good pieces. */
  ghost predicate InLanguage(v: string, fileSystem: bool) {
    exists ps :: GoodPieces(ps, fileSystem) && Print(ps) == v
  }

  // ----- everything printed is accepted

  lemma {:induction false} Cut(v: string, pos: nat, y: string, z: string)
    requires pos <= |v| && v[pos..] == y + z
    ensures pos + |y| <= |v| && v[pos..pos + |y|] == y && v[pos + |y|..] == z
  {
    assert v[pos..pos + |y|] == v[pos..][..|y|] && v[pos + |y|..] == v[pos..][|y|..];
  }

  lemma {:induction false} RegroupField(a: string, b: string, c: string, d: string, e: string, f: string)
    ensures a + b + c + d + e + f == a + (b + (c + (d + (e + f))))
  {}

  lemma {:induction false} FieldSlices(v: string, pos: nat, f: string, w: string, p: string, s: string, rest: string)
    requires pos <= |v| && v[pos..] == "%" + f + w + p + s + rest
    ensures var a := pos + 1 + |f|;
            var b := a + |w|;
            var c := b + |p|;
            && c + |s| <= |v| && v[pos..pos + 1] == "%"
            && v[pos + 1..a] == f && v[a..b] == w && v[b..c] == p && v[c..c + |s|] == s && v[c + |s|..] == rest
  {
    RegroupField("%", f, w, p, s, rest);
    Cut(v, pos, "%", f + (w + (p + (s + rest))));
    Cut(v, pos + 1, f, w + (p + (s + rest)));
    Cut(v, pos + 1 + |f|, w, p + (s + rest));
    Cut(v, pos + 1 + |f| + |w|, p, s + rest);
    Cut(v, pos + 1 + |f| + |w| + |p|, s, rest);
  }

  lemma {:induction false} ReadsBySlices(v: string, k: nat, a: nat, b: nat, c: nat, e: nat, precision: Option<string>)
    requires k <= a <= b <= c <= e <= |v|
    requires forall i | 0 <= i < |v[k..a]| :: IsFlag(v[k..a][i])
    requires ShortDigits(v[a..b], 3) && IsSpec(v[c..e])
    requires v[b..c] == PrintPrecision(precision) && (precision.Some? ==> ShortDigits(precision.value, 9))
    ensures Reads(v, k, a, b, c, e)
  {
    assert forall j | k <= j < a :: v[j] == v[k..a][j - k];
    assert forall j | a <= j < b :: v[j] == v[a..b][j - a];
    if precision.Some? {
      assert v[b] == v[b..c][0];
      forall j | b < j < c ensures IsDigit(v[j]) {
        assert v[j] == v[b..c][j - b] == precision.value[j - b - 1];
      }
    }
  }

  lemma {:induction false} ReadsNoPercent(v: string, k: nat, a: nat, b: nat, c: nat, e: nat)
    requires Reads(v, k, a, b, c, e)
    ensures v[k] != '%'
  {
    assert v[c] == v[c..e][0];
  }

  /** A printed directive can be read the way it was printed. */
  lemma {:induction false} FieldReads(v: string, pos: nat, flags: string, width: string, precision: Option<string>,
      spec: string, rest: string)
    requires pos <= |v| && v[pos..] == "%" + flags + width + PrintPrecision(precision) + spec + rest
    requires (forall i | 0 <= i < |flags| :: IsFlag(flags[i])) && ShortDigits(width, 3) && IsSpec(spec)
    requires precision.Some? ==> ShortDigits(precision.value, 9)
    ensures var a := pos + 1 + |flags|;
            var b := a + |width|;
            var c := b + |PrintPrecision(precision)|;
            && c + |spec| <= |v| && v[pos] == '%' && v[pos + 1] != '%'
            && Reads(v, pos + 1, a, b, c, c + |spec|) && v[c..c + |spec|] == spec && v[c + |spec|..] == rest
  {
    var a := pos + 1 + |flags|;
    var b := a + |width|;
    var c := b + |PrintPrecision(precision)|;
    FieldSlices(v, pos, flags, width, PrintPrecision(precision), spec, rest);
    assert v[pos] == v[pos..pos + 1][0];
    ReadsBySlices(v, pos + 1, a, b, c, c + |spec|, precision);
    ReadsNoPercent(v, pos + 1, a, b, c, c + |spec|);
  }

  lemma {:induction false} DirectiveFound(v: string, pos: nat, a: nat, b: nat, c: nat, e: nat)
    requires Reads(v, pos + 1, a, b, c, e) && v[pos + 1] != '%'
    ensures MatchAt(v, pos).Directive?
  {
    SearchFinds(v, pos + 1, a, b, c, e);
  }

  /** H and L are specifiers only together with d or r, so the longer alternative never takes too much. */
  lemma {:induction false} LongSpecWins(fileSystem: bool)
    ensures !Allowed(['H'], fileSystem) && !Allowed(['L'], fileSystem)
  {
    FileLettersOmitH();
    FileLettersOmitL();
    FileSystemLettersOmitBoth();
  }

  lemma {:induction false} FileLettersOmitH()
    ensures 'H' !in FILE_LETTERS
  {}

  lemma {:induction false} FileLettersOmitL()
    ensures 'L' !in FILE_LETTERS
  {}

  lemma {:induction false} FileSystemLettersOmitBoth()
    ensures 'H' !in FILE_SYSTEM_LETTERS && 'L' !in FILE_SYSTEM_LETTERS
  {}

  lemma {:induction false} TextMatches(v: string, pos: nat, flags: string, width: string,
      precision: Option<string>, spec: string, rest: string, fileSystem: bool)
    requires pos <= |v| && v[pos..] == "%" + flags + width + PrintPrecision(precision) + spec + rest
    requires (forall i | 0 <= i < |flags| :: IsFlag(flags[i])) && ShortDigits(width, 3) && IsSpec(spec)
    requires (precision.Some? ==> ShortDigits(precision.value, 9)) && Allowed(spec, fileSystem)
    ensures var c := pos + 1 + |flags| + |width| + |PrintPrecision(precision)|;
            && c + |spec| <= |v| && v[pos] == '%' && MatchAt(v, pos) == Directive(Spec(c, c + |spec|))
            && v[c..c + |spec|] == spec && v[c + |spec|..] == rest
  {
    var a := pos + 1 + |flags|;
    var b := a + |width|;
    var c := b + |PrintPrecision(precision)|;
    FieldReads(v, pos, flags, width, precision, spec, rest);
    ReadsFound(v, pos, a, b, c, spec, fileSystem);
  }

  lemma {:induction false} ReadsFound(v: string, pos: nat, a: nat, b: nat, c: nat, spec: string, fileSystem: bool)
    requires pos < |v| && Reads(v, pos + 1, a, b, c, c + |spec|) && v[pos + 1] != '%' && v[c..c + |spec|] == spec
    requires Allowed(spec, fileSystem)
    ensures MatchAt(v, pos) == Directive(Spec(c, c + |spec|))
  {
    DirectiveFound(v, pos, a, b, c, c + |spec|);
    SpecEnds(v, pos, a, b, c, spec, fileSystem);
  }

  /** At a printed directive the expression matches exactly that directive, with its own specifier. */
  lemma {:induction false} FieldMatches(v: string, pos: nat, p: Piece, rest: string, fileSystem: bool)
    requires pos <= |v| && p.Field? && GoodPiece(p, fileSystem) && v[pos..] == PrintPiece(p) + rest
    ensures pos < |v| && v[pos] == '%' && MatchAt(v, pos).Directive?
    ensures var s := MatchAt(v, pos).spec;
            && pos < s.start < s.end == pos + |PrintPiece(p)| <= |v|
            && v[s.start..s.end] == p.spec && v[s.end..] == rest
  {
    FieldLength(p);
    TextMatches(v, pos, p.flags, p.width, p.precision, p.spec, rest, fileSystem);
  }

  lemma {:induction false} FieldLength(p: Piece)
    requires p.Field?
    ensures PrintPiece(p) == "%" + p.flags + p.width + PrintPrecision(p.precision) + p.spec
    ensures |PrintPiece(p)| == 1 + |p.flags| + |p.width| + |PrintPrecision(p.precision)| + |p.spec|
  {}

  /** The match ends where the allowed specifier ends, although a shorter or longer one may fit too. */
  lemma {:induction false} SpecEnds(v: string, pos: nat, a: nat, b: nat, c: nat, spec: string, fileSystem: bool)
    requires pos < |v| && Reads(v, pos + 1, a, b, c, c + |spec|) && v[c..c + |spec|] == spec
    requires Allowed(spec, fileSystem) && MatchAt(v, pos).Directive?
    ensures MatchAt(v, pos).spec == Spec(c, c + |spec|)
  {
    var a', b' := MatchReads(v, pos);
    var s := MatchAt(v, pos).spec;
    SpecStartIsUnique(v, pos + 1, a, b, c, c + |spec|, a', b', s.start, s.end);
    assert v[c] == spec[0] && (|spec| == 2 ==> v[c + 1] == spec[1]);
    if |spec| == 1 {
      LongSpecWins(fileSystem);
      assert spec == [v[c]];
    }
  }

  lemma {:induction false} CharsOf(v: string, pos: nat, piece: string, rest: string)
    requires pos <= |v| && v[pos..] == piece + rest
    ensures pos + |piece| <= |v| && v[pos + |piece|..] == rest
    ensures forall i | 0 <= i < |piece| :: v[pos + i] == piece[i]
  {
    assert forall i | 0 <= i < |piece| :: v[pos..][i] == piece[i];
    Cut(v, pos, piece, rest);
  }

  lemma {:induction false} DirectivePassed(v: string, pos: nat, start: nat, end: nat, spec: string, fileSystem: bool)
    requires pos < start < end <= |v| && v[pos] == '%' && MatchAt(v, pos) == Directive(Spec(start, end))
    requires v[start..end] == spec && Allowed(spec, fileSystem) && ScanFrom(v, end, fileSystem)
    ensures ScanFrom(v, pos, fileSystem)
  {}

  lemma {:induction false} FieldIsScanned(v: string, pos: nat, ps: seq<Piece>, next: nat, fileSystem: bool)
    requires pos <= |v| && ps != [] && GoodPieces(ps, fileSystem) && v[pos..] == Print(ps) && ps[0].Field?
    requires next == pos + |PrintPiece(ps[0])| <= |v| && ScanFrom(v, next, fileSystem)
    ensures ScanFrom(v, pos, fileSystem)
  {
    FieldMatches(v, pos, ps[0], Print(ps[1..]), fileSystem);
    var s := MatchAt(v, pos).spec;
    DirectivePassed(v, pos, s.start, next, ps[0].spec, fileSystem);
  }

  /** The scan passes the first printed piece and goes on behind it. */
  lemma {:induction false} FirstIsScanned(v: string, pos: nat, ps: seq<Piece>, next: nat, fileSystem: bool)
    requires pos <= |v| && ps != [] && GoodPieces(ps, fileSystem) && v[pos..] == Print(ps)
    requires next == pos + |PrintPiece(ps[0])| <= |v| && ScanFrom(v, next, fileSystem)
    ensures ScanFrom(v, pos, fileSystem)
  {
    if ps[0].Field? {
      FieldIsScanned(v, pos, ps, next, fileSystem);
    } else {
      PlainIsScanned(v, pos, ps, next, fileSystem);
    }
  }

  lemma {:induction false} PlainIsScanned(v: string, pos: nat, ps: seq<Piece>, next: nat, fileSystem: bool)
    requires pos <= |v| && ps != [] && GoodPieces(ps, fileSystem) && v[pos..] == Print(ps) && !ps[0].Field?
    requires next == pos + |PrintPiece(ps[0])| <= |v| && ScanFrom(v, next, fileSystem)
    ensures ScanFrom(v, pos, fileSystem)
  {
    var piece := PrintPiece(ps[0]);
    CharsOf(v, pos, piece, Print(ps[1..]));
    assert v[pos + 0] == piece[0];
    assert ps[0].Escaped? ==> v[pos + 1] == piece[1];
  }

  lemma {:induction false} PrintedIsScanned(v: string, pos: nat, ps: seq<Piece>, fileSystem: bool)
    requires pos <= |v| && GoodPieces(ps, fileSystem) && v[pos..] == Print(ps)
    ensures ScanFrom(v, pos, fileSystem)
    decreases |ps|
  {
    if ps == [] {
      NothingLeft(v, pos, fileSystem);
    } else {
      var next := AfterFirst(v, pos, ps);
      PrintedIsScanned(v, next, ps[1..], fileSystem);
      FirstIsScanned(v, pos, ps, next, fileSystem);
    }
  }

  lemma {:induction false} AfterFirst(v: string, pos: nat, ps: seq<Piece>) returns (next: nat)
    requires pos <= |v| && ps != [] && v[pos..] == Print(ps)
    ensures next == pos + |PrintPiece(ps[0])| <= |v| && v[next..] == Print(ps[1..])
  {
    next := pos + |PrintPiece(ps[0])|;
    CharsOf(v, pos, PrintPiece(ps[0]), Print(ps[1..]));
  }

  lemma {:induction false} NothingLeft(v: string, pos: nat, fileSystem: bool)
    requires pos <= |v| && v[pos..] == ""
    ensures ScanFrom(v, pos, fileSystem)
  {
    assert |v[pos..]| == 0;
  }

  // ----- everything accepted is printed from pieces

  lemma {:induction false} DirectiveIsField(v: string, pos: nat, a: nat, b: nat, c: nat, e: nat,
      fileSystem: bool) returns (p: Piece)
    requires pos < |v| && v[pos] == '%' && Reads(v, pos + 1, a, b, c, e) && Allowed(v[c..e], fileSystem)
    ensures GoodPiece(p, fileSystem) && PrintPiece(p) == v[pos..e]
  {
    p := Field(v[pos + 1..a], v[a..b], if c == b then None else Some(v[b + 1..c]), v[c..e]);
    if c == b {
      assert v[b..c] == "";
    } else {
      Glue(v, b, b + 1, c);
      assert v[b..b + 1] == ".";
    }
    GlueField(v, pos, a, b, c, e);
  }

  lemma {:induction false} GlueField(v: string, pos: nat, a: nat, b: nat, c: nat, e: nat)
    requires pos < a <= b <= c <= e <= |v| && v[pos] == '%'
    ensures "%" + v[pos + 1..a] + v[a..b] + v[b..c] + v[c..e] == v[pos..e]
  {
    assert v[pos..pos + 1] == "%";
    Glue(v, pos, pos + 1, a);
    Glue(v, pos, a, b);
    Glue(v, pos, b, c);
    Glue(v, pos, c, e);
  }

  lemma {:induction false} Glue(v: string, i: nat, j: nat, k: nat)
    requires i <= j <= k <= |v|
    ensures v[i..j] + v[j..k] == v[i..k]
  {}

  lemma {:induction false} FirstPiece(v: string, pos: nat, fileSystem: bool) returns (p: Piece, next: nat)
    requires pos < |v| && ScanFrom(v, pos, fileSystem)
    ensures pos < next <= |v| && ScanFrom(v, next, fileSystem)
    ensures GoodPiece(p, fileSystem) && PrintPiece(p) + v[next..] == v[pos..]
  {
    if v[pos] != '%' {
      p, next := Literal(v[pos]), pos + 1;
      GlueRest(v, pos, next, [v[pos]]);
    } else if MatchAt(v, pos).Percent? {
      p, next := Escaped, pos + 2;
      GlueRest(v, pos, next, [v[pos], v[pos + 1]]);
    } else {
      p, next := ScannedField(v, pos, fileSystem);
      GlueRest(v, pos, next, PrintPiece(p));
    }
  }

  lemma {:induction false} ScannedField(v: string, pos: nat, fileSystem: bool) returns (p: Piece, next: nat)
    requires pos < |v| && v[pos] == '%' && MatchAt(v, pos).Directive? && ScanFrom(v, pos, fileSystem)
    ensures pos < next <= |v| && ScanFrom(v, next, fileSystem)
    ensures GoodPiece(p, fileSystem) && PrintPiece(p) == v[pos..next]
  {
    var a, b := MatchReads(v, pos);
    var s := MatchAt(v, pos).spec;
    p := DirectiveIsField(v, pos, a, b, s.start, s.end, fileSystem);
    next := s.end;
  }

  lemma {:induction false} GlueRest(v: string, pos: nat, next: nat, piece: string)
    requires pos <= next <= |v| && piece == v[pos..next]
    ensures piece + v[next..] == v[pos..]
  {}

  lemma {:induction false} ScannedIsPrinted(v: string, pos: nat, fileSystem: bool) returns (ps: seq<Piece>)
    requires pos <= |v| && ScanFrom(v, pos, fileSystem)
    ensures GoodPieces(ps, fileSystem) && Print(ps) == v[pos..]
    decreases |v| - pos
  {
    if pos == |v| {
      return [];
    }
    var p, next := FirstPiece(v, pos, fileSystem);
    var more := ScannedIsPrinted(v, next, fileSystem);
    ps := [p] + more;
    PrintFirst(p, more);
  }

  lemma {:induction false} PrintFirst(p: Piece, more: seq<Piece>)
    ensures Print([p] + more) == PrintPiece(p) + Print(more)
  {
    assert ([p] + more)[1..] == more;
  }

  /** The scanner accepts exactly the language, in both modes. */
  lemma {:induction false} ScanIsLanguage(v: string, fileSystem: bool)
    ensures ScanFrom(v, 0, fileSystem) <==> InLanguage(v, fileSystem)
  {
    assert v[0..] == v;
    if ScanFrom(v, 0, fileSystem) {
      var ps := ScannedIsPrinted(v, 0, fileSystem);
    }
    forall ps | GoodPieces(ps, fileSystem) && Print(ps) == v ensures ScanFrom(v, 0, fileSystem) {
      PrintedIsScanned(v, 0, ps, fileSystem);
    }
  }

  /** What a piece contributes, leaving open how the zeros of a directive are shared out. */
  datatype Shape = Shape(text: string, spec: string)

  function ShapeOf(p: Piece): Shape { Shape(PrintPiece(p), if p.Field? then p.spec else "") }

  function Shapes(ps: seq<Piece>): seq<Shape> {
    if ps == [] then [] else [ShapeOf(ps[0])] + Shapes(ps[1..])
  }

  lemma {:induction false} SameFirst(ps: seq<Piece>, qs: seq<Piece>, fileSystem: bool)
    requires GoodPieces(ps, fileSystem) && GoodPieces(qs, fileSystem) && ps != [] && qs != []
    requires Print(ps) == Print(qs)
    ensures ShapeOf(ps[0]) == ShapeOf(qs[0])
  {
    var v := Print(ps);
    var p, q := ps[0], qs[0];
    assert v[0..] == v && v == PrintPiece(p) + Print(ps[1..]) && v == PrintPiece(q) + Print(qs[1..]);
    if p.Field? { FieldMatches(v, 0, p, Print(ps[1..]), fileSystem); }
    if q.Field? { FieldMatches(v, 0, q, Print(qs[1..]), fileSystem); }
    assert v[0] == PrintPiece(p)[0] == PrintPiece(q)[0];
    if p.Escaped? { assert v[1] == PrintPiece(p)[1]; }
    if q.Escaped? { assert v[1] == PrintPiece(q)[1]; }
    assert PrintPiece(p) == v[..|PrintPiece(p)|] && PrintPiece(q) == v[..|PrintPiece(q)|];
  }

  /** A format falls into literals and directives in one way only. */
  lemma {:induction false} DecompositionIsUnique(ps: seq<Piece>, qs: seq<Piece>, fileSystem: bool)
    requires GoodPieces(ps, fileSystem) && GoodPieces(qs, fileSystem) && Print(ps) == Print(qs)
    ensures Shapes(ps) == Shapes(qs)
  {
    assert ps != [] ==> |PrintPiece(ps[0])| > 0;
    assert qs != [] ==> |PrintPiece(qs[0])| > 0;
    if ps != [] && qs != [] {
      SameFirst(ps, qs, fileSystem);
      assert Print(ps)[|PrintPiece(ps[0])|..] == Print(ps[1..]);
      assert Print(qs)[|PrintPiece(qs[0])|..] == Print(qs[1..]);
      DecompositionIsUnique(ps[1..], qs[1..], fileSystem);
    }
  }

  // ----- the specifiers of each mode, in literals

  lemma {:induction false} NonLetterIsNoDirective(v: string)
    requires |v| == 2 && v[0] == '%' && !IsLetter(v[1])
    ensures !MatchAt(v, 0).Directive?
  {
    if MatchAt(v, 0).Directive? {
      var a, b := MatchReads(v, 0);
    }
  }

  lemma {:induction false} LetterIsDirective(v: string)
    requires |v| == 2 && v[0] == '%' && IsLetter(v[1])
    ensures MatchAt(v, 0) == Directive(Spec(1, 2))
  {
    assert FlagRun(v, 1) == 0 && DigitRun(v, 1) == 0;
    assert MatchSpec(v, 1) == Some(Spec(1, 2));
    assert TryWidth(v, 1, 0) == Some(Spec(1, 2));
  }

  lemma {:induction false} LettersAre(c: char)
    ensures c in Letters(false) ==> IsLetter(c)
    ensures c in Letters(true) ==> IsLetter(c)
    ensures c in Letters(false) <==> c in "aAbBCdDfFgGhimnNostTuUwWxXyYzZrR"
    ensures c in Letters(true) <==> c in "abcdfilnsStT"
  {}

  lemma {:induction false} OneCharacter(v: string, c: char, fileSystem: bool)
    requires v == ['%', c]
    ensures ScanFrom(v, 0, fileSystem) <==> c == '%' || (IsLetter(c) && c in Letters(fileSystem))
  {
    if c != '%' {
      if IsLetter(c) { LetterIsDirective(v); } else { NonLetterIsNoDirective(v); }
      assert v[1..2] == [c];
    }
  }

  /** The directives of one character that each mode accepts. */
  lemma {:induction false} LetterAccepted(c: char)
    ensures InLanguage(['%', c], false) <==> c in "%" + "aAbBCdDfFgGhimnNostTuUwWxXyYzZrR"
    ensures InLanguage(['%', c], true) <==> c in "%" + "abcdfilnsStT"
  {
    ScanIsLanguage(['%', c], false);
    ScanIsLanguage(['%', c], true);
    OneCharacter(['%', c], c, false);
    OneCharacter(['%', c], c, true);
    LettersAre(c);
    WithPercent(c, "aAbBCdDfFgGhimnNostTuUwWxXyYzZrR");
    WithPercent(c, "abcdfilnsStT");
  }

  lemma {:induction false} WithPercent(c: char, letters: string)
    ensures c in "%" + letters <==> c == '%' || c in letters
  {}

  lemma {:induction false} PairIsDirective(v: string)
    requires |v| == 3 && v[0] == '%' && (v[1] == 'H' || v[1] == 'L') && (v[2] == 'd' || v[2] == 'r')
    ensures MatchAt(v, 0) == Directive(Spec(1, 3))
  {
    assert FlagRun(v, 1) == 0 && DigitRun(v, 1) == 0;
    assert MatchSpec(v, 1) == Some(Spec(1, 3));
    assert TryWidth(v, 1, 0) == Some(Spec(1, 3));
  }

  /** The four directives of two letters belong to file mode alone. */
  lemma {:induction false} PairAccepted(pair: string)
    requires pair == "Hd" || pair == "Ld" || pair == "Hr" || pair == "Lr"
    ensures InLanguage("%" + pair, false) && !InLanguage("%" + pair, true)
  {
    var v := "%" + pair;
    ScanIsLanguage(v, false);
    ScanIsLanguage(v, true);
    PairIsDirective(v);
    assert v[1..3] == pair;
  }

  /** The flags of a directive, and the letters that can end one. */
  lemma {:induction false} FlagsAre(c: char)
    ensures IsFlag(c) <==> c in "-#0+ '"
    ensures IsLetter(c) <==> 65 <= c as int <= 90 || 97 <= c as int <= 122
  {}
}
