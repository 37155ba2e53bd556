/**
 The find command: its request (linux_info_mcp/validate.py, validate_find_args), the printed line
 (linux_info_mcp/ssh.py, build_remote_cmd_find), and a decoder that recovers the request from the
 words the shell reads.
 */
module FindCommand {
  import opened Wrappers
  import opened Text
  import opened Shell
  import opened Printing
  import opened Plans
  import opened Builders

  datatype FindKey = MaxDepth | MinDepth | Type | Name | IName | PathGlob | MTime | Size

  datatype FindValue = Number(n: nat) | Word(s: string)

  /** The predicates in the order in which they are printed. */
  const FIND_KEYS: seq<FindKey> := [MaxDepth, MinDepth, Type, Name, IName, PathGlob, MTime, Size]

  function FindFlag(k: FindKey): string {
    match k
    case MaxDepth => "-maxdepth"
    case MinDepth => "-mindepth"
    case Type => "-type"
    case Name => "-name"
    case IName => "-iname"
    case PathGlob => "-path"
    case MTime => "-mtime"
    case Size => "-size"
  }

  type Predicates = map<FindKey, FindValue>

  /** What the validator guarantees of the map: the depths are numbers, the rest is text. */
  predicate ValidPredicates(preds: Predicates) {
    forall k | k in preds :: preds[k].Number? <==> k in {MaxDepth, MinDepth}
  }

  // ----- validating a request

  datatype FindRequest = FindRequest(name: Option<string>, iname: Option<string>, pathGlob: Option<string>,
                                     fileType: Option<string>, maxDepth: Option<int>, minDepth: Option<int>,
                                     mtime: Option<string>, size: Option<string>)

  const FIND_TYPES := ["f", "d", "l", "b", "c", "p", "s"]

  function Unsigned(s: string): string { if s != "" && (s[0] == '+' || s[0] == '-') then s[1..] else s }

  /** ^[+-]?\d+$ */
  predicate IsMTime(s: string) { IsDigits(Unsigned(s)) }

  predicate IsUnit(c: char) { c == 'b' || c == 'c' || c == 'w' || c == 'k' || c == 'M' || c == 'G' }

  /** ^[+-]?\d+[bcwkMG]?$ */
  predicate IsSize(s: string) {
    IsMTime(s) || (s != "" && IsUnit(s[|s| - 1]) && IsMTime(s[..|s| - 1]))
  }

  predicate ValidText(s: Option<string>) { s.Some? ==> NoUnsafe(s.value) }

  predicate ValidDepth(n: Option<int>) { n.Some? ==> n.value >= 0 }

  predicate ValidRequest(q: FindRequest) {
    && ValidText(q.name) && ValidText(q.iname) && ValidText(q.pathGlob)
    && (q.fileType.Some? ==> q.fileType.value in FIND_TYPES)
    && ValidDepth(q.maxDepth) && ValidDepth(q.minDepth)
    && (q.mtime.Some? ==> IsMTime(q.mtime.value)) && (q.size.Some? ==> IsSize(q.size.value))
  }

  function TextValue(s: Option<string>): Option<FindValue> {
    match s case None => None case Some(t) => Some(Word(t))
  }

  function DepthValue(n: Option<int>): Option<FindValue> {
    if n.Some? && n.value >= 0 then Some(Number(n.value)) else None
  }

  /** What a request says under a key. */
  function Requested(q: FindRequest, k: FindKey): Option<FindValue> {
    match k
    case MaxDepth => DepthValue(q.maxDepth)
    case MinDepth => DepthValue(q.minDepth)
    case Type => TextValue(q.fileType)
    case Name => TextValue(q.name)
    case IName => TextValue(q.iname)
    case PathGlob => TextValue(q.pathGlob)
    case MTime => TextValue(q.mtime)
    case Size => TextValue(q.size)
  }

  /** The map says what the request says under these keys, and nothing else. */
  predicate Covers(preds: Predicates, q: FindRequest, keys: set<FindKey>) {
    && (forall k | k in preds :: k in keys && Requested(q, k) == Some(preds[k]))
    && (forall k | k in keys && k !in preds :: Requested(q, k) == None)
  }

  const ALL_KEYS := {MaxDepth, MinDepth, Type, Name, IName, PathGlob, MTime, Size}

  /** A predicate map that says what the request says. */
  predicate Represents(preds: Predicates, q: FindRequest) { Covers(preds, q, ALL_KEYS) }

  function Put(preds: Predicates, k: FindKey, v: Option<FindValue>): Predicates {
    match v case None => preds case Some(value) => preds[k := value]
  }

  lemma {:induction false} PutCovers(preds: Predicates, q: FindRequest, keys: set<FindKey>, k: FindKey)
    requires Covers(preds, q, keys) && k !in keys
    ensures Covers(Put(preds, k, Requested(q, k)), q, keys + {k})
  {}

  method ValidateFindArgs(q: FindRequest) returns (r: Result<Predicates>)
    ensures r.Ok? <==> ValidRequest(q)
    ensures r.Ok? ==> Represents(r.value, q)
    ensures r.Raises? ==> r.error.ValueError?
  {
    r := ValidateTexts(q);
    if r.Raises? {
      return;
    }
    r := ValidateType(q, r.value, {Name, IName, PathGlob});
    if r.Raises? {
      return;
    }
    r := ValidateDepths(q, r.value, {Name, IName, PathGlob} + {Type});
    if r.Raises? {
      return;
    }
    r := ValidateTimeAndSize(q, r.value, {Name, IName, PathGlob} + {Type} + {MaxDepth, MinDepth});
    assert {Name, IName, PathGlob} + {Type} + {MaxDepth, MinDepth} + {MTime, Size} == ALL_KEYS;
  }

  method ValidateTexts(q: FindRequest) returns (r: Result<Predicates>)
    ensures r.Ok? <==> ValidText(q.name) && ValidText(q.iname) && ValidText(q.pathGlob)
    ensures r.Ok? ==> Covers(r.value, q, {Name, IName, PathGlob})
    ensures r.Raises? ==> r.error.ValueError?
  {
    var out: Predicates := map[];
    ghost var keys: set<FindKey> := {};
    var texts := [(Name, q.name), (IName, q.iname), (PathGlob, q.pathGlob)];
    for i := 0 to 3
      invariant forall j | 0 <= j < i :: ValidText(texts[j].1)
      invariant keys == set j | 0 <= j < i :: texts[j].0
      invariant Covers(out, q, keys)
    {
      var (key, val) := texts[i];
      PutCovers(out, q, keys, key);
      keys := keys + {key};
      if val.Some? {
        if !NoUnsafe(val.value) {
          assert !ValidText(texts[i].1);
          return Raises(ValueError("value contains NUL byte or newline"));
        }
        out := out[key := Word(val.value)];
      }
    }
    assert ValidText(texts[0].1) && ValidText(texts[1].1) && ValidText(texts[2].1);
    assert keys == {texts[0].0, texts[1].0, texts[2].0};
    r := Ok(out);
  }

  method ValidateType(q: FindRequest, soFar: Predicates, ghost keys: set<FindKey>) returns (r: Result<Predicates>)
    requires Covers(soFar, q, keys) && Type !in keys
    ensures r.Ok? <==> (q.fileType.Some? ==> q.fileType.value in FIND_TYPES)
    ensures r.Ok? ==> Covers(r.value, q, keys + {Type})
    ensures r.Raises? ==> r.error.ValueError?
  {
    var out := soFar;
    PutCovers(out, q, keys, Type);
    if q.fileType.Some? {
      if q.fileType.value !in FIND_TYPES {
        return Raises(ValueError("type must be one of ['b', 'c', 'd', 'f', 'l', 'p', 's']"));
      }
      out := out[Type := Word(q.fileType.value)];
    }
    r := Ok(out);
  }

  method ValidateDepths(q: FindRequest, soFar: Predicates, ghost keys: set<FindKey>) returns (r: Result<Predicates>)
    requires Covers(soFar, q, keys) && MaxDepth !in keys && MinDepth !in keys
    ensures r.Ok? <==> ValidDepth(q.maxDepth) && ValidDepth(q.minDepth)
    ensures r.Ok? ==> Covers(r.value, q, keys + {MaxDepth, MinDepth})
    ensures r.Raises? ==>
              r.error == ValueError(if q.maxDepth.Some? && q.maxDepth.value < 0
                                    then "maxdepth must be a non-negative int"
                                    else "mindepth must be a non-negative int")
  {
    var out := soFar;
    PutCovers(out, q, keys, MaxDepth);
    if q.maxDepth.Some? {
      if q.maxDepth.value < 0 {
        return Raises(ValueError("maxdepth must be a non-negative int"));
      }
      out := out[MaxDepth := Number(q.maxDepth.value)];
    }
    PutCovers(out, q, keys + {MaxDepth}, MinDepth);
    if q.minDepth.Some? {
      if q.minDepth.value < 0 {
        return Raises(ValueError("mindepth must be a non-negative int"));
      }
      out := out[MinDepth := Number(q.minDepth.value)];
    }
    assert keys + {MaxDepth} + {MinDepth} == keys + {MaxDepth, MinDepth};
    r := Ok(out);
  }

  method ValidateTimeAndSize(q: FindRequest, soFar: Predicates, ghost keys: set<FindKey>)
    returns (r: Result<Predicates>)
    requires Covers(soFar, q, keys) && MTime !in keys && Size !in keys
    ensures r.Ok? <==> (q.mtime.Some? ==> IsMTime(q.mtime.value)) && (q.size.Some? ==> IsSize(q.size.value))
    ensures r.Ok? ==> Covers(r.value, q, keys + {MTime, Size})
    ensures r.Raises? ==>
              r.error == ValueError(if q.mtime.Some? && !IsMTime(q.mtime.value) then "mtime must match ^[+-]?\\d+$"
                                    else "size must match ^[+-]?\\d+[bcwkMG]?$")
  {
    var out := soFar;
    PutCovers(out, q, keys, MTime);
    if q.mtime.Some? {
      if !IsMTime(q.mtime.value) {
        return Raises(ValueError("mtime must match ^[+-]?\\d+$"));
      }
      out := out[MTime := Word(q.mtime.value)];
    }
    PutCovers(out, q, keys + {MTime}, Size);
    if q.size.Some? {
      if !IsSize(q.size.value) {
        return Raises(ValueError("size must match ^[+-]?\\d+[bcwkMG]?$"));
      }
      out := out[Size := Word(q.size.value)];
    }
    assert keys + {MTime} + {Size} == keys + {MTime, Size};
    r := Ok(out);
  }

  // ----- printing

  function FindText(v: FindValue): string { match v case Number(n) => NatStr(n) case Word(s) => s }

  function Lookup(preds: Predicates, k: FindKey): Option<string> {
    if k in preds then Some(FindText(preds[k])) else None
  }

  function PairItems(keys: seq<FindKey>, preds: Predicates): seq<Item> {
    if keys == [] then []
    else OptionItems(FindFlag(keys[0]), Lookup(preds, keys[0])) + PairItems(keys[1..], preds)
  }

  function FindArgs(path: string, preds: Predicates): seq<Item> {
    [Text("find"), Value("", path)] + PairItems(FIND_KEYS, preds)
  }

  /** One `if key in predicates` statement of the builder. */
  function AddPredicate(parts: seq<string>, preds: Predicates, k: FindKey): seq<string> {
    if k in preds then parts + [FindFlag(k), Quote(FindText(preds[k]))] else parts
  }

  /** The items of the predicates, one group a key. */
  function FindGroups(preds: Predicates): (groups: seq<seq<Item>>)
    ensures |groups| == |FIND_KEYS|
  {
    PairGroups(FIND_KEYS, preds)
  }

  function PairGroups(keys: seq<FindKey>, preds: Predicates): (groups: seq<seq<Item>>)
    ensures |groups| == |keys|
  {
    seq(|keys|, i requires 0 <= i < |keys| => OptionItems(FindFlag(keys[i]), Lookup(preds, keys[i])))
  }

  lemma {:induction false} GroupsArePairs(keys: seq<FindKey>, preds: Predicates)
    ensures Concat(PairGroups(keys, preds)) == PairItems(keys, preds)
  {
    if keys != [] {
      GroupsArePairs(keys[1..], preds);
      assert PairGroups(keys, preds)[1..] == PairGroups(keys[1..], preds);
    }
  }

  /** One `if key in predicates` statement adds one group. */
  lemma {:induction false} PredicateAdded(start: seq<string>, preds: Predicates, i: nat, parts: seq<string>)
    requires i < |FIND_KEYS| && parts == PartsUpTo(start, FindGroups(preds), i)
    ensures AddPredicate(parts, preds, FIND_KEYS[i]) == PartsUpTo(start, FindGroups(preds), i + 1)
  {
    var k := FIND_KEYS[i];
    var more := OptionParts(FindFlag(k), Lookup(preds, k));
    ShowOption(FindFlag(k), Lookup(preds, k));
    AddPart(start, FindGroups(preds), i, more, parts + more);
    assert k !in preds ==> parts + more == parts;
  }

  method BuildFind(path: string, preds: Predicates) returns (cmd: string)
    ensures cmd == Line(OneCommand(FindArgs(path, preds)))
  {
    var start := ["LC_ALL=C", "find", Quote(path)];
    var parts := start;
    PredicateAdded(start, preds, 0, parts);
    parts := AddPredicate(parts, preds, MaxDepth);
    PredicateAdded(start, preds, 1, parts);
    parts := AddPredicate(parts, preds, MinDepth);
    PredicateAdded(start, preds, 2, parts);
    parts := AddPredicate(parts, preds, Type);
    PredicateAdded(start, preds, 3, parts);
    parts := AddPredicate(parts, preds, Name);
    PredicateAdded(start, preds, 4, parts);
    parts := AddPredicate(parts, preds, IName);
    PredicateAdded(start, preds, 5, parts);
    parts := AddPredicate(parts, preds, PathGlob);
    PredicateAdded(start, preds, 6, parts);
    parts := AddPredicate(parts, preds, MTime);
    PredicateAdded(start, preds, 7, parts);
    parts := AddPredicate(parts, preds, Size);
    FindLine(path, preds, start, parts);
    cmd := Join(" ", parts);
  }

  lemma {:induction false} FindLine(path: string, preds: Predicates, start: seq<string>, parts: seq<string>)
    requires start == ["LC_ALL=C", "find", Quote(path)] && parts == PartsUpTo(start, FindGroups(preds), 8)
    ensures Line(OneCommand(FindArgs(path, preds))) == Join(" ", parts)
  {
    assert "" + Quote(path) == Quote(path);
    assert ShowItems([Text("LC_ALL=C")] + [Text("find"), Value("", path)]) == start;
    GroupsText([Text("find"), Value("", path)], FindGroups(preds), start, parts);
    GroupsArePairs(FIND_KEYS, preds);
  }

  // ----- decoding a find command line

  function KeyOf(flag: string): Option<FindKey> {
    if flag == "-maxdepth" then Some(MaxDepth)
    else if flag == "-mindepth" then Some(MinDepth)
    else if flag == "-type" then Some(Type)
    else if flag == "-name" then Some(Name)
    else if flag == "-iname" then Some(IName)
    else if flag == "-path" then Some(PathGlob)
    else if flag == "-mtime" then Some(MTime)
    else if flag == "-size" then Some(Size)
    else None
  }

  /** Reads flag and value, two words at a time, from the left. */
  function DecodePairs(argv: seq<string>): Option<Predicates> {
    if argv == [] then Some(map[])
    else if |argv| < 2 || KeyOf(argv[0]).None? then None
    else
      var k := KeyOf(argv[0]).value;
      match DecodePairs(argv[2..])
      case None => None
      case Some(rest) =>
        if k !in {MaxDepth, MinDepth} then Some(map[k := Word(argv[1])] + rest)
        else match PyNat(argv[1])
          case None => None
          case Some(n) => Some(map[k := Number(n)] + rest)
  }

  function DecodeFind(argv: seq<string>): Option<(string, Predicates)> {
    if |argv| < 2 || argv[0] != "find" then None
    else match DecodePairs(argv[2..])
      case None => None
      case Some(preds) => Some((argv[1], preds))
  }

  lemma {:induction false} KeyOfFlag(k: FindKey)
    ensures KeyOf(FindFlag(k)) == Some(k)
  {}

  lemma {:induction false} DecodeOption(k: FindKey, preds: Predicates, rest: seq<string>, after: Predicates)
    requires ValidPredicates(preds) && k in preds && DecodePairs(rest) == Some(after)
    ensures DecodePairs([FindFlag(k), FindText(preds[k])] + rest) == Some(map[k := preds[k]] + after)
  {
    KeyOfFlag(k);
    var argv := [FindFlag(k), FindText(preds[k])] + rest;
    assert argv[2..] == rest;
    if preds[k].Number? { PyNatOfNatStr(preds[k].n); }
  }

  /** A predicate map cut down to some keys. */
  function Cut(preds: Predicates, keys: seq<FindKey>): Predicates { map k | k in preds && k in keys :: preds[k] }

  lemma {:induction false} CutFirst(preds: Predicates, keys: seq<FindKey>)
    requires keys != []
    ensures Cut(preds, keys)
         == (if keys[0] in preds then map[keys[0] := preds[keys[0]]] else map[]) + Cut(preds, keys[1..])
  {
    assert forall k :: k in keys <==> k == keys[0] || k in keys[1..];
  }

  lemma {:induction false} ArgvOfOption(k: FindKey, preds: Predicates, more: seq<Item>)
    requires AreArgs(more)
    ensures var items := OptionItems(FindFlag(k), Lookup(preds, k)) + more;
            && AreArgs(items)
            && Argv(items) == (if k in preds then [FindFlag(k), FindText(preds[k])] else []) + Argv(more)
  {
    FlagsArePlain(k);
    OptionGood(FindFlag(k), Lookup(preds, k));
    ArgvAppend(OptionItems(FindFlag(k), Lookup(preds, k)), more);
  }

  lemma {:induction false} FlagsArePlain(k: FindKey)
    ensures FindFlag(k) != "" && AllPlain(FindFlag(k))
  {}

  lemma {:induction false} OptionGood(flag: string, value: Option<string>)
    requires flag != "" && AllPlain(flag)
    ensures AreArgs(OptionItems(flag, value))
    ensures Argv(OptionItems(flag, value)) == if value.Some? then [flag, value.value] else []
  {
    if value.Some? { assert "" + value.value == value.value; }
  }

  /** Decoding the printed pairs of some keys gives the map cut down to those keys. */
  lemma {:induction false} DecodeKeys(keys: seq<FindKey>, preds: Predicates)
    requires ValidPredicates(preds)
    ensures AreArgs(PairItems(keys, preds))
    ensures DecodePairs(Argv(PairItems(keys, preds))) == Some(Cut(preds, keys))
  {
    if keys == [] {
      assert Argv(PairItems(keys, preds)) == [];
      assert Cut(preds, keys) == map[];
    } else {
      var more := PairItems(keys[1..], preds);
      DecodeKeys(keys[1..], preds);
      ArgvOfOption(keys[0], preds, more);
      CutFirst(preds, keys);
      if keys[0] in preds {
        DecodeOption(keys[0], preds, Argv(more), Cut(preds, keys[1..]));
      } else {
        assert [] + Argv(more) == Argv(more);
        assert map[] + Cut(preds, keys[1..]) == Cut(preds, keys[1..]);
      }
    }
  }

  lemma {:induction false} PairsGood(keys: seq<FindKey>, preds: Predicates)
    ensures AreArgs(PairItems(keys, preds))
  {
    if keys != [] {
      PairsGood(keys[1..], preds);
      ArgvOfOption(keys[0], preds, PairItems(keys[1..], preds));
    }
  }

  lemma {:induction false} FindArgsGood(path: string, preds: Predicates)
    ensures GoodStage(Stage(true, FindArgs(path, preds), false))
    ensures AreArgs(PairItems(FIND_KEYS, preds))
    ensures Argv(FindArgs(path, preds)) == ["find", path] + Argv(PairItems(FIND_KEYS, preds))
  {
    PairsGood(FIND_KEYS, preds);
    assert "" + path == path;
    assert Argv([Text("find"), Value("", path)]) == ["find", path];
    ArgvAppend([Text("find"), Value("", path)], PairItems(FIND_KEYS, preds));
  }

  lemma {:induction false} EveryKey(k: FindKey)
    ensures k in FIND_KEYS
  {
    assert FIND_KEYS[0] == MaxDepth && FIND_KEYS[1] == MinDepth && FIND_KEYS[2] == Type && FIND_KEYS[3] == Name;
    assert FIND_KEYS[4] == IName && FIND_KEYS[5] == PathGlob && FIND_KEYS[6] == MTime && FIND_KEYS[7] == Size;
  }

  lemma {:induction false} CutToAll(preds: Predicates)
    ensures Cut(preds, FIND_KEYS) == preds
  {
    forall k | k in preds ensures k in FIND_KEYS { EveryKey(k); }
  }

  /**
   The shell reads a printed find line as one command, and decoding its words from the left gives
   back the path and every predicate, also where a value spells a flag.
   */
  lemma {:induction false} FindRoundTrip(path: string, preds: Predicates)
    requires ValidPredicates(preds)
    ensures var argv := ArgvUnderC(Line(OneCommand(FindArgs(path, preds))));
            argv.Some? && DecodeFind(argv.value) == Some((path, preds))
  {
    FindArgsGood(path, preds);
    ArgvOfLine(FindArgs(path, preds));
    DecodeKeys(FIND_KEYS, preds);
    CutToAll(preds);
    var argv := Argv(FindArgs(path, preds));
    assert argv[2..] == Argv(PairItems(FIND_KEYS, preds));
  }

  /** Two different requests never print the same find line. */
  lemma {:induction false} FindIsInjective(path: string, preds: Predicates, path': string, preds': Predicates)
    requires ValidPredicates(preds) && ValidPredicates(preds')
    requires Line(OneCommand(FindArgs(path, preds))) == Line(OneCommand(FindArgs(path', preds')))
    ensures path == path' && preds == preds'
  {
    FindRoundTrip(path, preds);
    FindRoundTrip(path', preds');
  }

  /**
   From request to words and back: the words the shell reads from the line printed for a validated
   request decode to the path and its predicate map, and the map stands for that request alone.
   */
  lemma {:induction false} FindRequestRoundTrip(path: string, q: FindRequest, preds: Predicates, other: FindRequest)
    requires ValidRequest(q) && Represents(preds, q)
    ensures var argv := ArgvUnderC(Line(OneCommand(FindArgs(path, preds))));
            argv.Some? && DecodeFind(argv.value) == Some((path, preds))
    ensures ValidRequest(other) && Represents(preds, other) ==> other == q
  {
    RepresentedIsValid(q, preds);
    FindRoundTrip(path, preds);
    if ValidRequest(other) && Represents(preds, other) {
      forall k: FindKey ensures Requested(other, k) == Requested(q, k) {
        SaysTheSame(preds, q, other, k);
      }
      SameRequest(q, other);
    }
  }

  lemma {:induction false} SaysTheSame(preds: Predicates, q: FindRequest, other: FindRequest, k: FindKey)
    requires Represents(preds, q) && Represents(preds, other)
    ensures Requested(other, k) == Requested(q, k)
  {
    assert k in ALL_KEYS by {
      match k { case _ => }
    }
  }

  lemma {:induction false} RepresentedIsValid(q: FindRequest, preds: Predicates)
    requires Represents(preds, q)
    ensures ValidPredicates(preds)
  {
    forall k | k in preds ensures preds[k].Number? <==> k in {MaxDepth, MinDepth} {
      assert Requested(q, k) == Some(preds[k]);
    }
  }

  lemma {:induction false} SameRequest(q: FindRequest, other: FindRequest)
    requires ValidRequest(q) && ValidRequest(other)
    requires forall k: FindKey :: Requested(other, k) == Requested(q, k)
    ensures other == q
  {
    assert Requested(other, MaxDepth) == Requested(q, MaxDepth) && Requested(other, MinDepth) == Requested(q, MinDepth);
    assert Requested(other, Type) == Requested(q, Type) && Requested(other, Name) == Requested(q, Name);
    assert Requested(other, IName) == Requested(q, IName) && Requested(other, PathGlob) == Requested(q, PathGlob);
    assert Requested(other, MTime) == Requested(q, MTime) && Requested(other, Size) == Requested(q, Size);
  }

  // ----- the words and the tables, in literals

  /** A flag and the value of a key, if the map has it. */
  function Pair(flag: string, preds: Predicates, k: FindKey): seq<string> {
    if k in preds then [flag, match preds[k] case Number(n) => NatStr(n) case Word(s) => s] else []
  }

  lemma {:induction false} FirstPair(flag: string, k: FindKey, later: seq<FindKey>, preds: Predicates)
    requires flag == FindFlag(k)
    ensures AreArgs(PairItems([k] + later, preds)) && AreArgs(PairItems(later, preds))
    ensures Argv(PairItems([k] + later, preds)) == Pair(flag, preds, k) + Argv(PairItems(later, preds))
  {
    PairsGood([k] + later, preds);
    PairsGood(later, preds);
    assert ([k] + later)[1..] == later;
    ArgvOfOption(k, preds, PairItems(later, preds));
  }

  lemma {:induction false} NoPairs(preds: Predicates)
    ensures AreArgs(PairItems([], preds)) && Argv(PairItems([], preds)) == []
  {}

  /** The pairs of a list of keys under the flags written beside them. */
  function PairWords(keys: seq<FindKey>, flags: seq<string>, preds: Predicates): seq<string>
    requires |keys| == |flags|
  {
    if keys == [] then [] else Pair(flags[0], preds, keys[0]) + PairWords(keys[1..], flags[1..], preds)
  }

  lemma {:induction false} ArgvOfPairs(keys: seq<FindKey>, flags: seq<string>, preds: Predicates)
    requires |keys| == |flags| && forall i | 0 <= i < |keys| :: flags[i] == FindFlag(keys[i])
    ensures AreArgs(PairItems(keys, preds)) && Argv(PairItems(keys, preds)) == PairWords(keys, flags, preds)
  {
    if keys == [] {
      NoPairs(preds);
    } else {
      assert keys == [keys[0]] + keys[1..];
      FirstPair(flags[0], keys[0], keys[1..], preds);
      ArgvOfPairs(keys[1..], flags[1..], preds);
    }
  }

  /** The words that find receives: each key's value behind its own flag. */
  lemma {:induction false} FindWords(path: string, preds: Predicates)
    ensures ArgvUnderC(Line(OneCommand(FindArgs(path, preds))))
         == Some(["find", path]
                 + PairWords([MaxDepth, MinDepth, Type, Name, IName, PathGlob, MTime, Size],
                             ["-maxdepth", "-mindepth", "-type", "-name", "-iname", "-path", "-mtime", "-size"], preds))
  {
    var flags := ["-maxdepth", "-mindepth", "-type", "-name", "-iname", "-path", "-mtime", "-size"];
    FindArgsGood(path, preds);
    ArgvOfLine(FindArgs(path, preds));
    ArgvOfPairs(FIND_KEYS, flags, preds);
  }

  /** The file types and the shapes of mtime and size. */
  lemma {:induction false} TypesAre(s: string)
    ensures s in FIND_TYPES <==>
            s == "f" || s == "d" || s == "l" || s == "b" || s == "c" || s == "p" || s == "s"
  {}

  /** A number of days is accepted bare or with a sign; a size with one of the six units as well. */
  lemma {:induction false} TimesAndSizesAre(n: nat, sign: string, unit: string)
    requires |sign| <= 1 && |unit| <= 1
    ensures IsMTime(sign + NatStr(n)) <==> sign == "" || IsDigit(sign[0]) || sign == "+" || sign == "-"
    ensures sign == "" ==>
              (IsSize(NatStr(n) + unit) <==>
               unit == "" || IsDigit(unit[0]) || unit == "b" || unit == "c" || unit == "w" || unit == "k"
               || unit == "M" || unit == "G")
  {
    var s := sign + NatStr(n);
    assert sign != "" ==> s[1..] == NatStr(n);
    assert sign == "" ==> s == NatStr(n);
    var t := NatStr(n) + unit;
    if unit == "" {
      assert t == NatStr(n);
    } else {
      assert t[..|t| - 1] == NatStr(n) && t[|t| - 1] == unit[0];
      assert IsDigit(t[0]);
    }
  }
}
