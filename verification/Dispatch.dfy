/**
 The tool dispatch (linux_info_mcp/server.py): error taxonomy, output modes, the per-host slots of
 a fan-out and the call itself, on dictionaries that the code updates in place. Handlers, parsers
 and the JSON encoder are arbitrary functions; the stderr signatures are arbitrary predicates.
 */
module Dispatch {
  import opened Wrappers
  import opened Text
  import CallContext
  import Capture
  import FanOut
  import Hosts

  // ----- Python values

  /** `Other` is any value the dispatch only tests for truth. */
  datatype Val =
    | Null
    | Bool(b: bool)
    | Int(n: int)
    | Str(s: string)
    | List(items: seq<Val>)
    | Dict(entries: map<string, Val>)
    | Other(tag: nat, truthy: bool)

  type Record = map<string, Val>

  /** dict.get */
  function Get(r: Record, key: string): Val { if key in r then r[key] else Null }

  /** isinstance(v, int), which holds of booleans too. */
  predicate IsInt(v: Val) { v.Int? || v.Bool? }

  function IntOf(v: Val): int
    requires IsInt(v)
  {
    if v.Int? then v.n else if v.b then 1 else 0
  }

  predicate Truthy(v: Val) {
    match v
    case Null => false
    case Bool(b) => b
    case Int(n) => n != 0
    case Str(s) => s != ""
    case List(items) => items != []
    case Dict(entries) => entries != map[]
    case Other(_, truthy) => truthy
  }

  datatype Reply = Items(record: Record) | NotADict

  type Handler = Record -> Result<Reply>
  type Parser = string -> Result<Val>

  datatype Spec = Spec(handler: Handler, parser: Option<Parser>)

  // ----- the error taxonomy

  /** Which of the stderr signatures a text matches. */
  datatype Signatures = Signatures(auth: string -> bool, dns: string -> bool, unreachable: string -> bool,
                                   notFound: string -> bool, privilege: string -> bool)

  function ClassifyError(sig: Signatures, exitCode: int, stderr: Val): string {
    var s := if stderr.Str? then stderr.s else "";
    if exitCode == 0 then "ok"
    else if exitCode == 124 then "timeout"
    else if sig.auth(s) then "auth"
    else if sig.dns(s) then "dns"
    else if sig.unreachable(s) then "unreachable"
    else if exitCode == 127 || sig.notFound(s) then "not_found"
    else if sig.privilege(s) then "privilege"
    else "nonzero"
  }

  // ----- the two updates of a reply

  predicate PrivilegeFailure(sig: Signatures, r: Record) {
    && IsInt(Get(r, "exit_code")) && IntOf(Get(r, "exit_code")) != 0
    && Get(r, "stderr").Str? && sig.privilege(Get(r, "stderr").s)
  }

  function Annotated(sig: Signatures, r: Record): Record {
    if !IsInt(Get(r, "exit_code")) then r
    else
      var kind := ClassifyError(sig, IntOf(Get(r, "exit_code")), Get(r, "stderr"));
      r["error_kind" := Str(kind)] + if PrivilegeFailure(sig, r) then map["privilege_error" := Bool(true)] else map[]
  }

  /**
   A reply is of kind "ok" exactly when its exit code is zero. A "privilege" reply always carries the
   privilege flag; a flagged reply is of another kind exactly when an earlier rule caught it.
   */
  lemma {:induction false} KindAgainstFlag(sig: Signatures, r: Record)
    requires IsInt(Get(r, "exit_code")) && "privilege_error" !in r
    ensures var out := Annotated(sig, r);
            var code := IntOf(Get(r, "exit_code"));
            var s := if Get(r, "stderr").Str? then r["stderr"].s else "";
            && "error_kind" in out
            && (out["error_kind"] == Str("ok") <==> code == 0)
            && (out["error_kind"] == Str("privilege") ==> "privilege_error" in out || !Get(r, "stderr").Str?)
            && ("privilege_error" in out ==>
                  (out["error_kind"] != Str("privilege") <==>
                   code == 124 || sig.auth(s) || sig.dns(s) || sig.unreachable(s) || code == 127 || sig.notFound(s)))
  {
    var kind := Annotated(sig, r)["error_kind"].s;
    assert kind == "ok" ==> |kind| == 2;
    assert kind == "privilege" ==> |kind| == 9;
  }

  /** The output of a command that ended well and was captured whole. */
  predicate Parseable(r: Record, parser: Option<Parser>) {
    && !(IsInt(Get(r, "exit_code")) && IntOf(Get(r, "exit_code")) != 0)
    && !Truthy(Get(r, "truncated"))
    && parser.Some? && Get(r, "stdout").Str?
  }

  function SkipReason(r: Record): string {
    if IsInt(Get(r, "exit_code")) && IntOf(Get(r, "exit_code")) != 0 then "skipped_nonzero"
    else if Truthy(Get(r, "truncated")) then "skipped_truncated"
    else "unsupported"
  }

  function TypeName(e: Error): string { if e.ValueError? then "ValueError" else e.kind }

  function Shaped(r: Record, mode: string, parser: Option<Parser>): Record {
    if mode == "raw" then r - {"parsed"}
    else if !Parseable(r, parser) then r["parse_status" := Str(SkipReason(r))]
    else match parser.value(Get(r, "stdout").s)
      case Raises(e) => r["parse_status" := Str("error: " + TypeName(e))]
      case Ok(v) =>
        var parsed := r["parsed" := v]["parse_status" := Str("ok")];
        if mode == "parsed" then parsed - {"stdout"} else parsed
  }

  /** A reply dictionary; the dispatch updates it in place. */
  class ResultDict {
    var items: Record

    constructor (items: Record)
      ensures this.items == items
    {
      this.items := items;
    }

    method AnnotatePrivilege(sig: Signatures)
      modifies this
      ensures items == Annotated(sig, old(items))
    {
      var ec := Get(items, "exit_code");
      var stderr := Get(items, "stderr");
      if IsInt(ec) {
        items := items["error_kind" := Str(ClassifyError(sig, IntOf(ec), stderr))];
        if IntOf(ec) != 0 && stderr.Str? && sig.privilege(stderr.s) {
          items := items["privilege_error" := Bool(true)];
        }
      }
    }

    method ApplyOutputMode(mode: string, parser: Option<Parser>)
      modifies this
      ensures items == Shaped(old(items), mode, parser)
    {
      if mode == "raw" {
        items := items - {"parsed"};
        return;
      }
      var ec := Get(items, "exit_code");
      if IsInt(ec) && IntOf(ec) != 0 {
        items := items["parse_status" := Str("skipped_nonzero")];
        return;
      }
      if Truthy(Get(items, "truncated")) {
        items := items["parse_status" := Str("skipped_truncated")];
        return;
      }
      var stdout := Get(items, "stdout");
      if parser.None? || !stdout.Str? {
        items := items["parse_status" := Str("unsupported")];
        return;
      }
      match parser.value(stdout.s) {
        case Raises(e) =>
          items := items["parse_status" := Str("error: " + TypeName(e))];
          return;
        case Ok(v) =>
          items := items["parsed" := v];
          items := items["parse_status" := Str("ok")];
      }
      if mode == "parsed" {
        items := items - {"stdout"};
      }
    }
  }

  function Presented(sig: Signatures, r: Record, mode: string, parser: Option<Parser>): Record {
    Shaped(Annotated(sig, r), mode, parser)
  }

  /** The keys the dispatch may write or remove; all others pass through. */
  const TOUCHED := {"error_kind", "privilege_error", "parse_status", "parsed", "stdout"}

  lemma {:induction false} AnnotatedSpares(sig: Signatures, r: Record)
    ensures var a := Annotated(sig, r);
            forall k | k != "error_kind" && k != "privilege_error" :: (k in a <==> k in r) && (k in r ==> a[k] == r[k])
  {}

  lemma {:induction false} ShapedSpares(r: Record, mode: string, parser: Option<Parser>)
    ensures var out := Shaped(r, mode, parser);
            forall k | k != "parse_status" && k != "parsed" && k != "stdout" ::
              (k in out <==> k in r) && (k in r ==> out[k] == r[k])
  {}

  /** All that the handler said passes through, but for the keys the dispatch uses. */
  lemma {:induction false} OthersPassThrough(sig: Signatures, r: Record, mode: string, parser: Option<Parser>)
    ensures Presented(sig, r, mode, parser) - TOUCHED == r - TOUCHED
  {
    AnnotatedSpares(sig, r);
    ShapedSpares(Annotated(sig, r), mode, parser);
  }

  /**
   stdout is dropped only from a reply whose parse succeeded, `parsed` then being the parser's
   value on that very stdout; it is never changed.
   */
  lemma {:induction false} StdoutIsNeverLost(sig: Signatures, r: Record, mode: string, parser: Option<Parser>)
    ensures var out := Presented(sig, r, mode, parser);
            && ("stdout" in out ==> "stdout" in r && out["stdout"] == r["stdout"])
            && ("stdout" in r && "stdout" !in out <==>
                mode == "parsed" && Parseable(r, parser) && parser.value(r["stdout"].s).Ok?)
            && ("stdout" in r && "stdout" !in out ==>
                out["parse_status"] == Str("ok") && Ok(out["parsed"]) == parser.value(r["stdout"].s))
  {
    AnnotatedSpares(sig, r);
    assert Parseable(Annotated(sig, r), parser) == Parseable(r, parser);
  }

  /** "ok" is reported exactly for whole, successful output that the parser accepts. */
  lemma {:induction false} ParseStatusOkIff(sig: Signatures, r: Record, mode: string, parser: Option<Parser>)
    requires mode != "raw"
    ensures var out := Presented(sig, r, mode, parser);
            && "parse_status" in out
            && (out["parse_status"] == Str("ok") <==>
                Parseable(r, parser) && parser.value(r["stdout"].s).Ok?)
            && (out["parse_status"] == Str("ok") ==> Ok(Get(out, "parsed")) == parser.value(r["stdout"].s))
            && (out["parse_status"] != Str("ok") ==> Get(out, "stdout") == Get(r, "stdout"))
  {
    var a := Annotated(sig, r);
    AnnotatedSpares(sig, r);
    assert Parseable(a, parser) == Parseable(r, parser);
    assert ("error: ")[0] != ("ok")[0];
  }

  // ----- one host of a fan-out

  function ErrorText(e: Error): string {
    match e
    case ValueError(message) => message
    case OtherError(kind, message) => kind + ": " + message
  }

  function FailedOutcome(e: Error): string { if e.ValueError? then "validation_error" else "handler_error" }

  const NON_DICT := "handler returned non-dict"

  function HostArgs(base: Record, host: string): Record { (base - {"hosts"})["host" := Str(host)] }

  function ErrorSlot(host: string, error: string, outcome: string): Record {
    map["host" := Str(host), "error" := Str(error), "outcome" := Str(outcome)]
  }

  /** The slot of one host; a `host` key of the handler's own wins over the dispatch's. */
  function HostSlot(sig: Signatures, spec: Spec, base: Record, host: string, mode: string): Record {
    match spec.handler(HostArgs(base, host))
    case Raises(e) => ErrorSlot(host, ErrorText(e), FailedOutcome(e))
    case Ok(NotADict) => ErrorSlot(host, NON_DICT, "handler_error")
    case Ok(Items(r)) => map["host" := Str(host)] + Presented(sig, r, mode, spec.parser)
  }

  method RunHandlerForHost(sig: Signatures, spec: Spec, base: Record, host: string, mode: string)
    returns (slot: Record)
    ensures slot == HostSlot(sig, spec, base, host, mode)
  {
    var a := base - {"hosts"};
    a := a["host" := Str(host)];
    var r := spec.handler(a);
    match r {
      case Raises(ValueError(message)) =>
        return map["host" := Str(host), "error" := Str(message), "outcome" := Str("validation_error")];
      case Raises(OtherError(kind, message)) =>
        var text := kind + ": " + message;
        return map["host" := Str(host), "error" := Str(text), "outcome" := Str("handler_error")];
      case Ok(NotADict) =>
        return map["host" := Str(host), "error" := Str(NON_DICT), "outcome" := Str("handler_error")];
      case Ok(Items(record)) =>
        var result := new ResultDict(record);
        result.AnnotatePrivilege(sig);
        result.ApplyOutputMode(mode, spec.parser);
        slot := map["host" := Str(host)] + result.items;
    }
  }

  /** A slot counts as failed when it has an error or a non-zero exit code. */
  predicate SlotFailed(slot: Record) {
    || !Get(slot, "error").Null?
    || (IsInt(Get(slot, "exit_code")) && IntOf(Get(slot, "exit_code")) != 0)
  }

  function FailedSlots(per: seq<Record>): set<nat> { set i: nat | i < |per| && SlotFailed(per[i]) }

  method MultiHostFailed(per: seq<Record>) returns (bad: nat)
    ensures bad == |FailedSlots(per)|
  {
    bad := 0;
    for i := 0 to |per|
      invariant bad == |FailedSlots(per[..i])|
    {
      var seen := FailedSlots(per[..i]);
      assert FailedSlots(per[..i + 1]) == if SlotFailed(per[i]) then seen + {i} else seen;
      if !Get(per[i], "error").Null? {
        bad := bad + 1;
        continue;
      }
      var ec := Get(per[i], "exit_code");
      if IsInt(ec) && IntOf(ec) != 0 {
        bad := bad + 1;
      }
    }
    assert per[..|per|] == per;
  }

  // ----- a call

  datatype Env = Env(allow: string, maxHosts: string, parallelism: string, outputMode: string)

  /** What the client gets, before encoding, and what the call's log line reports. */
  datatype Answer = Answer(result: Record, outcome: string, error: Option<string>, exitCode: Val,
                           hostCount: Option<nat>, mode: string)

  predicate IsMode(s: string) { s == "raw" || s == "parsed" || s == "both" }

  function ModeError(value: string): Error {
    ValueError("output_mode " + Repr(value) + " invalid; must be one of ['both', 'parsed', 'raw']")
  }

  /** resolve_output_mode: both texts must be valid where given, and the environment's wins. */
  function ResolveOutputMode(arg: Val, envRaw: string): (r: Result<string>)
    ensures r.Raises? ==> r.error.ValueError?
    ensures r.Ok? <==> (arg.Null? || (arg.Str? && IsMode(arg.s))) && (Strip(envRaw) == "" || IsMode(Strip(envRaw)))
    ensures r.Ok? ==> IsMode(r.value)
    ensures r.Ok? && Strip(envRaw) != "" ==> r.value == Strip(envRaw)
    ensures r.Ok? && Strip(envRaw) == "" ==> r.value == (if arg.Str? then arg.s else "raw")
  {
    if !arg.Null? && !arg.Str? then Raises(ValueError("output_mode must be a string"))
    else if arg.Str? && !IsMode(arg.s) then Raises(ModeError(arg.s))
    else if Strip(envRaw) != "" then
      if IsMode(Strip(envRaw)) then Ok(Strip(envRaw)) else Raises(ModeError(Strip(envRaw)))
    else Ok(if arg.Str? then arg.s else "raw")
  }

  /** A host as the validator sees it: a value that is no string fails like the empty one. */
  function HostText(v: Val): string { if v.Str? then v.s else "" }

  function HostArg(args: Record): Option<string> {
    if Get(args, "host").Null? then None else Some(HostText(args["host"]))
  }

  /** A `hosts` value that is no list fails like the empty list. */
  function HostsArg(args: Record): Option<seq<string>> {
    match Get(args, "hosts")
    case Null => None
    case List(items) => Some(seq(|items|, i requires 0 <= i < |items| => HostText(items[i])))
    case _ => Some([])
  }

  function Targets(args: Record, env: Env): Option<Hosts.Targets> {
    Hosts.TargetsOf(HostArg(args), HostsArg(args), env.allow, env.maxHosts)
  }

  /** resolve_target_hosts on a dictionary of arguments. */
  function ResolveTargets(args: Record, env: Env): (r: Result<Hosts.Targets>)
    ensures r.Ok? <==> Targets(args, env).Some?
    ensures r.Ok? ==> Some(r.value) == Targets(args, env)
    ensures r.Raises? ==> r.error.ValueError?
  {
    var hosts := Get(args, "hosts");
    if HostArg(args).None? && !hosts.Null? && !hosts.List? then Raises(ValueError("hosts must be a list of strings"))
    else Hosts.CheckTargets(HostArg(args), HostsArg(args), env.allow, env.maxHosts)
  }

  function Refusal(outcome: string, message: string, mode: string): Answer {
    Answer(map["error" := Str(message)], outcome, Some(message), Null, None, mode)
  }

  function SingleAnswer(sig: Signatures, spec: Spec, args: Record, mode: string): Answer {
    match spec.handler(args)
    case Raises(e) => Refusal(FailedOutcome(e), ErrorText(e), mode)
    case Ok(NotADict) => Refusal("handler_error", NON_DICT, mode)
    case Ok(Items(r)) =>
      var ec := Get(r, "exit_code");
      var outcome := if IsInt(ec) && IntOf(ec) != 0 then "nonzero" else "ok";
      Answer(Presented(sig, r, mode, spec.parser), outcome, None, ec, None, mode)
  }

  function Slots(sig: Signatures, spec: Spec, args: Record, hosts: seq<string>, mode: string): seq<Record> {
    FanOut.MapHosts(hosts, host => HostSlot(sig, spec, args, host, mode))
  }

  function MapDicts(per: seq<Record>): (vs: seq<Val>)
    ensures |vs| == |per| && forall i | 0 <= i < |per| :: vs[i] == Dict(per[i])
  {
    seq(|per|, i requires 0 <= i < |per| => Dict(per[i]))
  }

  function FailureText(failed: nat, hostCount: nat): string {
    NatStr(failed) + "/" + NatStr(hostCount) + " host(s) failed"
  }

  function MultiAnswer(sig: Signatures, spec: Spec, args: Record, hosts: seq<string>, mode: string): Answer {
    var per := Slots(sig, spec, args, hosts, mode);
    var failed := |FailedSlots(per)|;
    Answer(
      map["multi_host" := Bool(true), "host_count" := Int(|hosts|), "results" := List(MapDicts(per))],
      if failed > 0 then "partial" else "ok",
      if failed > 0 then Some(FailureText(failed, |hosts|)) else None,
      Null, Some(|hosts|), mode)
  }

  /** The "tool_call" log line, with the context value it was logged under. */
  datatype CallLog = CallLog(ctx: Option<CallContext.Ctx>, host: Val, answer: Answer, parseStatus: Option<Val>)

  method MultiHostAnswer(sig: Signatures, spec: Spec, args: Record, hosts: seq<string>, mode: string)
    returns (answer: Answer)
    ensures answer == MultiAnswer(sig, spec, args, hosts, mode)
  {
    var futures: map<nat, Record> := map[];
    for i := 0 to |hosts|
      invariant forall k: nat :: k in futures <==> k < i
      invariant forall k: nat | k < i :: futures[k] == HostSlot(sig, spec, args, hosts[k], mode)
    {
      var slot := RunHandlerForHost(sig, spec, args, hosts[i], mode);
      futures := futures[i := slot];
    }
    var results := FanOut.RunMultiHost(hosts, host => HostSlot(sig, spec, args, host, mode), futures, map[]);
    var per := results[..];
    assert per == Slots(sig, spec, args, hosts, mode);
    var result: Record :=
      map["multi_host" := Bool(true), "host_count" := Int(|hosts|), "results" := List(MapDicts(per))];
    var failed := MultiHostFailed(per);
    var outcome, error := "ok", None;
    if failed > 0 {
      outcome := "partial";
      error := Some(FailureText(failed, |hosts|));
    }
    answer := Answer(result, outcome, error, Null, Some(|hosts|), mode);
  }

  method SingleHostAnswer(sig: Signatures, spec: Spec, args: Record, mode: string) returns (answer: Answer)
    ensures answer == SingleAnswer(sig, spec, args, mode)
  {
    var r := spec.handler(args);
    match r {
      case Ok(Items(record)) =>
        var result := new ResultDict(record);
        result.AnnotatePrivilege(sig);
        result.ApplyOutputMode(mode, spec.parser);
        var exitCode := Get(result.items, "exit_code");
        AnnotationsSpare(sig, record, mode, spec.parser);
        var outcome := "ok";
        if IsInt(exitCode) && IntOf(exitCode) != 0 {
          outcome := "nonzero";
        }
        answer := Answer(result.items, outcome, None, exitCode, None, mode);
      case Ok(NotADict) =>
        answer := Refusal("handler_error", NON_DICT, mode);
      case Raises(ValueError(message)) =>
        answer := Refusal("validation_error", message, mode);
      case Raises(OtherError(kind, message)) =>
        answer := Refusal("handler_error", kind + ": " + message, mode);
    }
  }

  /** The two updates leave exit code, error and host as the handler gave them. */
  lemma {:induction false} AnnotationsSpare(sig: Signatures, r: Record, mode: string, parser: Option<Parser>)
    ensures var out := Presented(sig, r, mode, parser);
            && Get(out, "exit_code") == Get(r, "exit_code")
            && Get(out, "error") == Get(r, "error")
            && Get(out, "host") == Get(r, "host")
            && ("host" in out <==> "host" in r)
  {
    AnnotatedSpares(sig, r);
    ShapedSpares(Annotated(sig, r), mode, parser);
  }

  method Resolve(args: Record, env: Env) returns (r: Result<Hosts.Targets>)
    ensures r == ResolveTargets(args, env)
  {
    var hosts := Get(args, "hosts");
    if HostArg(args).None? && !hosts.Null? && !hosts.List? {
      return Raises(ValueError("hosts must be a list of strings"));
    }
    r := Hosts.ResolveTargetHosts(HostArg(args), HostsArg(args), env.allow, env.maxHosts);
  }

  /** _call_tool, up to the encoding of its answer; `encode` may raise. */
  method CallTool(ctx: CallContext.ContextVar, requestId: string, tools: map<string, Spec>, sig: Signatures,
                  env: Env, name: string, args: Record, encode: Record -> Result<string>)
    returns (text: Result<string>, log: CallLog)
    modifies ctx
    ensures ctx.value == old(ctx.value)
    ensures log.ctx == Some(CallContext.Ctx(name, requestId))
    ensures text == encode(log.answer.result)
    ensures name !in tools ==> log.answer == Refusal("unknown_tool", "unknown tool: " + name, "raw")
    ensures name in tools ==>
              var mode := ResolveOutputMode(Get(args, "output_mode"), env.outputMode);
              var targets := ResolveTargets(args, env);
              log.answer ==
                if mode.Raises? then Refusal("validation_error", mode.error.message, "raw")
                else if targets.Raises? then Refusal("validation_error", targets.error.message, mode.value)
                else if targets.value.isMulti
                then MultiAnswer(sig, tools[name], args, targets.value.hosts, mode.value)
                else SingleAnswer(sig, tools[name], args, mode.value)
    ensures log.parseStatus.Some? <==>
              log.answer.hostCount.None? && log.answer.mode != "raw" && "parse_status" in log.answer.result
    ensures log.host == if log.answer.hostCount.Some? then Null else Get(args, "host")
  {
    var token := ctx.SetCallCtx(name, requestId);
    var host := Get(args, "host");
    var answer: Answer;
    if name !in tools {
      answer := Refusal("unknown_tool", "unknown tool: " + name, "raw");
    } else {
      var mode := ResolveOutputMode(Get(args, "output_mode"), env.outputMode);
      var targets := Resolve(args, env);
      if mode.Raises? {
        answer := Refusal("validation_error", mode.error.message, "raw");
      } else if targets.Raises? {
        answer := Refusal("validation_error", targets.error.message, mode.value);
      } else if targets.value.isMulti {
        host := Null;
        answer := MultiHostAnswer(sig, tools[name], args, targets.value.hosts, mode.value);
      } else {
        answer := SingleHostAnswer(sig, tools[name], args, mode.value);
      }
    }
    var status := None;
    if answer.hostCount.None? && answer.mode != "raw" && "parse_status" in answer.result {
      status := Some(answer.result["parse_status"]);
    }
    log := CallLog(ctx.value, host, answer, status);
    text := encode(answer.result);
    ctx.ResetCallCtx(token);
  }

  /** The pool that _run_multi_host starts for a call. */
  function PoolOf(sig: Signatures, spec: Spec, args: Record, hosts: seq<string>, mode: string, env: Env):
    FanOut.Config<string, Record>
  {
    FanOut.Config(FanOut.Workers(Hosts.Parallelism(env.parallelism), |hosts|), hosts,
                  host => HostSlot(sig, spec, args, host, mode), map[])
  }

  /**
   Whatever the schedule of the pool's threads, at most LINUX_INFO_PARALLELISM (and 25) of them work
   at a time, and a run that can go no further has filled the slots that the answer reports.
   */
  lemma {:induction false} AnyScheduleFillsTheSlots(sig: Signatures, spec: Spec, args: Record, hosts: seq<string>,
      mode: string, env: Env, acts: seq<FanOut.Action>)
    requires hosts != [] && FanOut.Legal(PoolOf(sig, spec, args, hosts, mode, env), acts)
    ensures var c := PoolOf(sig, spec, args, hosts, mode, env);
            && |FanOut.After(c, acts).running| <= Hosts.Parallelism(env.parallelism) <= Hosts.HARD_MAX_HOSTS
            && ((forall a :: !FanOut.Legal(c, acts + [a])) ==>
                  FanOut.After(c, acts).results == Slots(sig, spec, args, hosts, mode))
  {
    var c := PoolOf(sig, spec, args, hosts, mode, env);
    Hosts.LimitsAreClamped(env.parallelism, 0);
    FanOut.PoolIsBounded(c, acts);
    if forall a :: !FanOut.Legal(c, acts + [a]) {
      FanOut.FanOutRefinesMap(c, acts);
    }
  }

  // ----- a fan-out against single calls

  /**
   A slot and the single-host call for the same host agree: same reply apart from `host`, same
   error text. `one` are the arguments of the single call; it may carry a null `hosts`, which the
   handler ignores.
   */
  lemma {:induction false} SlotAgreesWithCall(sig: Signatures, spec: Spec, base: Record, one: Record, host: string,
      mode: string)
    requires one - {"hosts"} == HostArgs(base, host)
    requires spec.handler(one) == spec.handler(one - {"hosts"})
    ensures var slot := HostSlot(sig, spec, base, host, mode);
            var call := SingleAnswer(sig, spec, one, mode);
            && (call.error.None? ==> slot - {"host"} == call.result - {"host"})
            && (call.error.Some? ==>
                slot == ErrorSlot(host, call.error.value, call.outcome) && call.result["error"] == slot["error"])
            && (slot["host"] == Str(host) <==> ("host" in call.result ==> call.result["host"] == Str(host)))
  {
    var reply := spec.handler(one);
    match reply {
      case Ok(Items(r)) =>
        var out := Presented(sig, r, mode, spec.parser);
        assert (map["host" := Str(host)] + out) - {"host"} == out - {"host"};
      case _ =>
    }
  }

  /**
   A slot is counted as failed exactly when the single call would not end "ok", or when its reply,
   though it ends "ok", carries an `error` of its own.
   */
  lemma {:induction false} SlotFailedIff(sig: Signatures, spec: Spec, base: Record, one: Record, host: string,
      mode: string)
    requires one - {"hosts"} == HostArgs(base, host)
    requires spec.handler(one) == spec.handler(one - {"hosts"})
    ensures var call := SingleAnswer(sig, spec, one, mode);
            SlotFailed(HostSlot(sig, spec, base, host, mode)) <==>
            call.outcome != "ok" || !Get(call.result, "error").Null?
  {
    var reply := spec.handler(one);
    match reply {
      case Ok(Items(r)) =>
        AnnotationsSpare(sig, r, mode, spec.parser);
      case _ =>
    }
  }

  /** What an operator would call a failed single-host call. */
  predicate CallFailed(call: Answer) { call.outcome != "ok" || !Get(call.result, "error").Null? }

  /**
   A call on a host list answers for each of its hosts what a call on that host alone would: the
   single call is accepted in the same mode, and the slot is its reply under the host's name.
   */
  lemma {:induction false} MultiAgreesWithSingles(sig: Signatures, spec: Spec, args: Record, env: Env, i: nat)
    requires Targets(args, env).Some? && Targets(args, env).value.isMulti
    requires i < |Targets(args, env).value.hosts|
    requires ResolveOutputMode(Get(args, "output_mode"), env.outputMode).Ok?
    ensures var hosts := Targets(args, env).value.hosts;
            var mode := ResolveOutputMode(Get(args, "output_mode"), env.outputMode);
            var one := HostArgs(args, hosts[i]);
            var call := SingleAnswer(sig, spec, one, mode.value);
            var results := MultiAnswer(sig, spec, args, hosts, mode.value).result["results"].items;
            && Targets(one, env) == Some(Hosts.Targets([hosts[i]], false))
            && ResolveOutputMode(Get(one, "output_mode"), env.outputMode) == mode
            && |results| == |hosts| <= Hosts.HARD_MAX_HOSTS
            && results[i].Dict?
            && (call.error.None? ==> results[i].entries - {"host"} == call.result - {"host"})
            && (call.error.Some? ==> results[i].entries == ErrorSlot(hosts[i], call.error.value, call.outcome))
  {
    var hosts := Targets(args, env).value.hosts;
    var mode := ResolveOutputMode(Get(args, "output_mode"), env.outputMode).value;
    var one := HostArgs(args, hosts[i]);
    Hosts.TargetsStandAlone(HostsArg(args).value, env.allow, env.maxHosts, i);
    assert HostArg(one) == Some(hosts[i]) && HostsArg(one) == None;
    assert one - {"hosts"} == one;
    SlotAgreesWithCall(sig, spec, args, one, hosts[i], mode);
  }

  /** The hosts of a list on which the single call would fail. */
  function FailedHosts(sig: Signatures, spec: Spec, args: Record, hosts: seq<string>, mode: string): set<nat> {
    set i: nat | i < |hosts| && CallFailed(SingleAnswer(sig, spec, HostArgs(args, hosts[i]), mode))
  }

  lemma {:induction false} FailedSlotsAreFailedCalls(sig: Signatures, spec: Spec, args: Record, hosts: seq<string>,
      mode: string)
    ensures FailedSlots(Slots(sig, spec, args, hosts, mode)) == FailedHosts(sig, spec, args, hosts, mode)
  {
    var per := Slots(sig, spec, args, hosts, mode);
    forall i: nat | i < |hosts|
      ensures SlotFailed(per[i]) <==> CallFailed(SingleAnswer(sig, spec, HostArgs(args, hosts[i]), mode))
    {
      var one := HostArgs(args, hosts[i]);
      assert one - {"hosts"} == one;
      SlotFailedIff(sig, spec, args, one, hosts[i], mode);
    }
  }

  /** The number before the slash. */
  function CountIn(text: string): Option<nat> { PyNat(text[..Find(text, '/')]) }

  lemma {:induction false} CountInFailureText(failed: nat, hostCount: nat)
    ensures CountIn(FailureText(failed, hostCount)) == Some(failed)
  {
    var rest := NatStr(hostCount) + " host(s) failed";
    assert FailureText(failed, hostCount) == NatStr(failed) + ['/'] + rest;
    FindExact(NatStr(failed), '/', rest);
    assert FailureText(failed, hostCount)[..|NatStr(failed)|] == NatStr(failed);
    PyNatOfNatStr(failed);
  }

  /**
   The outcome is "partial" exactly when the call on some host alone would fail, and "ok" when none
   would; the error text starts with the number of such hosts.
   */
  lemma {:induction false} PartialCountsFailedCalls(sig: Signatures, spec: Spec, args: Record, hosts: seq<string>,
      mode: string)
    ensures var answer := MultiAnswer(sig, spec, args, hosts, mode);
            var failed := FailedHosts(sig, spec, args, hosts, mode);
            && answer.outcome == (if failed != {} then "partial" else "ok")
            && (answer.error.Some? <==> failed != {})
            && (answer.error.Some? ==> CountIn(answer.error.value) == Some(|failed|))
  {
    FailedSlotsAreFailedCalls(sig, spec, args, hosts, mode);
    CountInFailureText(|FailedHosts(sig, spec, args, hosts, mode)|, |hosts|);
  }

  // ----- the vocabulary of the answers, in literals

  /** Each kind by its own condition: the exit code, and which signatures stderr matches. */
  lemma {:induction false} KindIff(sig: Signatures, r: Record)
    requires IsInt(Get(r, "exit_code"))
    ensures var code := if r["exit_code"].Int? then r["exit_code"].n else if r["exit_code"].b then 1 else 0;
            var s := if "stderr" in r && r["stderr"].Str? then r["stderr"].s else "";
            var remote := code != 0 && code != 124;
            var auth, dns := sig.auth(s), sig.dns(s);
            var gone, missing := sig.unreachable(s), code == 127 || sig.notFound(s);
            var kind := Get(Annotated(sig, r), "error_kind");
            && (kind == Str("ok") <==> code == 0)
            && (kind == Str("timeout") <==> code == 124)
            && (kind == Str("auth") <==> remote && auth)
            && (kind == Str("dns") <==> remote && !auth && dns)
            && (kind == Str("unreachable") <==> remote && !auth && !dns && gone)
            && (kind == Str("not_found") <==> remote && !auth && !dns && !gone && missing)
            && (kind == Str("privilege") <==> remote && !auth && !dns && !gone && !missing && sig.privilege(s))
            && (kind == Str("nonzero") <==> remote && !auth && !dns && !gone && !missing && !sig.privilege(s))
  {
    KindsDiffer(ClassifyError(sig, IntOf(Get(r, "exit_code")), Get(r, "stderr")));
  }

  lemma {:induction false} KindsDiffer(k: string)
    ensures k == "ok" ==> |k| == 2
    ensures k == "timeout" ==> |k| == 7
    ensures k == "auth" ==> |k| == 4
    ensures k == "dns" ==> |k| == 3
    ensures k == "unreachable" ==> |k| == 11
    ensures k == "not_found" ==> |k| == 9 && k[0] == 'n'
    ensures k == "privilege" ==> |k| == 9 && k[0] == 'p'
    ensures k == "nonzero" ==> |k| == 7 && k[0] == 'n'
    ensures k == "timeout" ==> k[0] == 't'
  {}

  /** When the flag is set, and that nothing else of the reply changes. */
  lemma {:induction false} PrivilegeFlagIff(sig: Signatures, r: Record)
    requires "privilege_error" !in r
    ensures "privilege_error" in Annotated(sig, r) <==>
            && "exit_code" in r && (r["exit_code"].Int? || r["exit_code"].Bool?)
            && r["exit_code"] != Int(0) && r["exit_code"] != Bool(false)
            && "stderr" in r && r["stderr"].Str? && sig.privilege(r["stderr"].s)
    ensures "privilege_error" in Annotated(sig, r) ==> Annotated(sig, r)["privilege_error"] == Bool(true)
  {}

  /** The answer for a command that timed out is of that kind, whatever its exit code would have been. */
  lemma {:induction false} TimedOutIsTimeout(sig: Signatures, mode: string, parser: Option<Parser>,
      c: Capture.Config, acts: seq<Capture.Action>, returnCode: int, r: Record)
    requires Capture.Legal(c, acts) && Capture.After(c, acts).phase.Done? && Capture.After(c, acts).timedOut
    requires Get(r, "exit_code") == Int(Capture.RunResult(c, Capture.After(c, acts), returnCode).exitCode)
    ensures Get(Presented(sig, r, mode, parser), "error_kind") == Str("timeout")
  {
    KindIff(sig, r);
    ShapedSpares(Annotated(sig, r), mode, parser);
  }

  /** What parse_status says of a reply that is not parsed, or whose parser raises. */
  lemma {:induction false} StatusIs(sig: Signatures, r: Record, mode: string, parser: Option<Parser>)
    requires mode != "raw"
    ensures var status := Get(Presented(sig, r, mode, parser), "parse_status");
            var failed := "exit_code" in r && (r["exit_code"].Int? || r["exit_code"].Bool?)
                          && r["exit_code"] != Int(0) && r["exit_code"] != Bool(false);
            if failed then status == Str("skipped_nonzero")
            else if "truncated" in r && Truthy(r["truncated"]) then status == Str("skipped_truncated")
            else if parser.None? || "stdout" !in r || !r["stdout"].Str? then status == Str("unsupported")
            else
              match parser.value(r["stdout"].s)
              case Ok(_) => status == Str("ok")
              case Raises(ValueError(_)) => status == Str("error: ValueError")
              case Raises(OtherError(kind, _)) => status == Str("error: " + kind)
  {
    AnnotatedSpares(sig, r);
    assert "error: " + "ValueError" == "error: ValueError";
  }

  /** In raw mode a reply is only stripped of a `parsed` of its own. */
  lemma {:induction false} RawIs(sig: Signatures, r: Record, parser: Option<Parser>)
    ensures Presented(sig, r, "raw", parser) == Annotated(sig, r) - {"parsed"}
  {}

  /** Python's truth of the values the dispatch tests. */
  lemma {:induction false} TruthIs(n: int, s: string, b: bool)
    ensures IntOf(Bool(true)) == 1 && IntOf(Bool(false)) == 0 && IntOf(Int(n)) == n
    ensures !Truthy(Null) && Truthy(Bool(b)) == b && (Truthy(Int(n)) <==> n != 0) && (Truthy(Str(s)) <==> s != "")
    ensures !Truthy(List([])) && Truthy(List([Null])) && !Truthy(Dict(map[])) && Truthy(Dict(map["" := Null]))
  {
    assert map["" := Null].Keys == {""};
  }

  /** The slot and the single answer of a handler that raises or returns no dictionary. */
  lemma {:induction false} FailuresAre(sig: Signatures, spec: Spec, base: Record, host: string, mode: string)
    ensures var a := base - {"hosts"};
            var slot := HostSlot(sig, spec, base, host, mode);
            match spec.handler(a["host" := Str(host)])
            case Raises(ValueError(m)) =>
              slot == map["host" := Str(host), "error" := Str(m), "outcome" := Str("validation_error")]
            case Raises(OtherError(kind, m)) =>
              slot == map["host" := Str(host), "error" := Str(kind + ": " + m), "outcome" := Str("handler_error")]
            case Ok(NotADict) =>
              slot == map["host" := Str(host), "error" := Str("handler returned non-dict"),
                          "outcome" := Str("handler_error")]
            case Ok(Items(r)) => "host" in slot && ("host" !in r ==> slot["host"] == Str(host))
    ensures var call := SingleAnswer(sig, spec, base, mode);
            match spec.handler(base)
            case Raises(ValueError(m)) =>
              call.outcome == "validation_error" && call.error == Some(m) && call.result == map["error" := Str(m)]
            case Raises(OtherError(kind, m)) =>
              && call.outcome == "handler_error" && call.error == Some(kind + ": " + m)
              && call.result == map["error" := Str(kind + ": " + m)]
            case Ok(NotADict) =>
              && call.outcome == "handler_error" && call.error == Some("handler returned non-dict")
              && call.result == map["error" := Str("handler returned non-dict")]
            case Ok(Items(r)) =>
              var failed := "exit_code" in r && (r["exit_code"].Int? || r["exit_code"].Bool?)
                            && r["exit_code"] != Int(0) && r["exit_code"] != Bool(false);
              && call.error == None && call.outcome == (if failed then "nonzero" else "ok")
              && call.exitCode == (if "exit_code" in r then r["exit_code"] else Null)
  {
    match spec.handler(HostArgs(base, host)) {
      case Ok(Items(r)) => OthersPassThrough(sig, r, mode, spec.parser);
      case _ =>
    }
  }

  /** The keys of a fan-out's answer, and its error text. */
  lemma {:induction false} MultiAnswerIs(sig: Signatures, spec: Spec, args: Record, hosts: seq<string>, mode: string)
    ensures var answer := MultiAnswer(sig, spec, args, hosts, mode);
            var failed := FailedHosts(sig, spec, args, hosts, mode);
            && answer.result.Keys == {"multi_host", "host_count", "results"}
            && answer.result["multi_host"] == Bool(true) && answer.result["host_count"] == Int(|hosts|)
            && answer.result["results"].List? && |answer.result["results"].items| == |hosts|
            && (forall i | 0 <= i < |hosts| ::
                  answer.result["results"].items[i] == Dict(HostSlot(sig, spec, args, hosts[i], mode)))
            && answer.error == if failed == {} then None
                               else Some(NatStr(|failed|) + "/" + NatStr(|hosts|) + " host(s) failed")
  {
    FailedSlotsAreFailedCalls(sig, spec, args, hosts, mode);
    assert MultiAnswer(sig, spec, args, hosts, mode).result.Keys == {"multi_host", "host_count", "results"};
  }

  /** How the two host arguments are read; what is no string, or no list, is refused like an empty one. */
  lemma {:induction false} HostArgumentsAre(args: Record, hosts: seq<string>)
    ensures HostArg(args) == if "host" !in args || args["host"] == Null then None
                             else if args["host"].Str? then Some(args["host"].s) else Some("")
    ensures "hosts" !in args || args["hosts"] == Null ==> HostsArg(args) == None
    ensures "hosts" in args && args["hosts"] == List(seq(|hosts|, i requires 0 <= i < |hosts| => Str(hosts[i]))) ==>
              HostsArg(args) == Some(hosts)
    ensures "hosts" in args && !args["hosts"].List? && args["hosts"] != Null ==> HostsArg(args) == Some([])
  {
    if "hosts" in args && args["hosts"] == List(seq(|hosts|, i requires 0 <= i < |hosts| => Str(hosts[i]))) {
      assert HostsArg(args).value == hosts;
    }
  }

  /** The three modes, and the error for any other. */
  lemma {:induction false} ModesAre(s: string, env: string, v: Val)
    ensures v != Null && !v.Str? ==> ResolveOutputMode(v, env) == Raises(ValueError("output_mode must be a string"))
    ensures IsMode(s) <==> s in {"raw", "parsed", "both"}
    ensures !IsMode(s) ==>
              ResolveOutputMode(Str(s), env)
              == Raises(ValueError("output_mode " + Repr(s) + " invalid; must be one of ['both', 'parsed', 'raw']"))
  {}
}
