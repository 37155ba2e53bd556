/** Host validation, the host-list limits and target resolution (linux_info_mcp/validate.py). */
module Hosts {
  import opened Wrappers
  import opened Text

  const HARD_MAX_HOSTS := 25
  const DEFAULT_MAX_HOSTS := 10
  const DEFAULT_PARALLELISM := 4

  // ----- limits from the environment

  /** LINUX_INFO_MAX_HOSTS, read from its raw text. */
  function EffectiveMaxHosts(raw: string): int {
    var text := Strip(raw);
    var limit :=
      if text == "" then DEFAULT_MAX_HOSTS
      else match PyInt(text)
        case None => DEFAULT_MAX_HOSTS
        case Some(n) => if n < 1 then DEFAULT_MAX_HOSTS else n;
    Min(limit, HARD_MAX_HOSTS)
  }

  /** LINUX_INFO_PARALLELISM, read from its raw text. */
  function Parallelism(raw: string): int {
    var text := Strip(raw);
    if text == "" then DEFAULT_PARALLELISM
    else match PyInt(text)
      case None => DEFAULT_PARALLELISM
      case Some(n) => if n < 1 then DEFAULT_PARALLELISM else Min(n, HARD_MAX_HOSTS)
  }

  /** Both limits stay in [1, 25], and a number in that range written in decimal is taken as it is. */
  lemma {:induction false} LimitsAreClamped(raw: string, n: int)
    ensures 1 <= EffectiveMaxHosts(raw) <= HARD_MAX_HOSTS && 1 <= Parallelism(raw) <= HARD_MAX_HOSTS
    ensures 1 <= n ==> EffectiveMaxHosts(IntStr(n)) == Parallelism(IntStr(n)) == Min(n, HARD_MAX_HOSTS)
    ensures n < 1 ==> EffectiveMaxHosts(IntStr(n)) == DEFAULT_MAX_HOSTS && Parallelism(IntStr(n)) == DEFAULT_PARALLELISM
  {
    PyIntOfIntStr(n);
    StripFixed(IntStr(n));
  }

  // ----- one host

  /** The entries of the comma-separated allowlist, blank ones dropped. */
  function AllowList(raw: string): seq<string>
    decreases |raw|
  {
    var n := Find(raw, ',');
    var entry := Strip(raw[..n]);
    (if entry == "" then [] else [entry]) + if n == |raw| then [] else AllowList(raw[n + 1..])
  }

  predicate ValidHost(host: string, allowRaw: string) {
    && host != "" && NoUnsafe(host) && NoSpace(host) && host[0] != '-'
    && (Strip(allowRaw) != "" ==> host in AllowList(Strip(allowRaw)))
  }

  function ValidateHost(host: string, allowRaw: string): (r: Result<string>)
    ensures r.Ok? <==> ValidHost(host, allowRaw)
    ensures r.Ok? ==> r.value == host
    ensures r.Raises? ==> r.error.ValueError?
  {
    if host == "" then Raises(ValueError("host must be a non-empty string"))
    else if 0 as char in host then Raises(ValueError("host contains NUL byte"))
    else if !NoUnsafe(host) then Raises(ValueError("host contains newline"))
    else if !NoSpace(host) then Raises(ValueError("host contains whitespace"))
    else if host[0] == '-' then Raises(ValueError("host must not start with '-'"))
    else if Strip(allowRaw) != "" && host !in AllowList(Strip(allowRaw)) then
      Raises(ValueError("host " + Repr(host) + " not in LINUX_INFO_HOSTS allowlist"))
    else Ok(host)
  }

  // ----- host lists

  /** The list without the entries that occurred before. */
  function Dedupe(hosts: seq<string>): seq<string> {
    if hosts == [] then []
    else
      var front, last := Dedupe(hosts[..|hosts| - 1]), hosts[|hosts| - 1];
      if last in front then front else front + [last]
  }

  predicate AllValid(hosts: seq<string>, allowRaw: string) {
    forall i | 0 <= i < |hosts| :: ValidHost(hosts[i], allowRaw)
  }

  /** The error of the first host that is refused. */
  function FirstRefusal(hosts: seq<string>, allowRaw: string): (e: Option<Error>)
    ensures e.None? <==> AllValid(hosts, allowRaw)
    ensures e.Some? ==> e.value.ValueError?
  {
    if hosts == [] then None
    else
      match FirstRefusal(hosts[..|hosts| - 1], allowRaw)
      case Some(e) => Some(e)
      case None =>
        match ValidateHost(hosts[|hosts| - 1], allowRaw) case Raises(e) => Some(e) case Ok(_) => None
  }

  function TooMany(count: nat, limit: int): Error {
    ValueError("hosts count " + NatStr(count) + " exceeds limit " + IntStr(limit)
               + " (LINUX_INFO_MAX_HOSTS, hard max 25)")
  }

  /** Count first, then every host in order, then the list without duplicates. */
  function CheckHostList(hosts: seq<string>, allowRaw: string, limitRaw: string): Result<seq<string>> {
    var limit := EffectiveMaxHosts(limitRaw);
    if hosts == [] then Raises(ValueError("hosts must be a non-empty list"))
    else if |hosts| > limit then Raises(TooMany(|hosts|, limit))
    else match FirstRefusal(hosts, allowRaw)
      case Some(e) => Raises(e)
      case None => Ok(Dedupe(hosts))
  }

  method ValidateHostList(hosts: seq<string>, allowRaw: string, limitRaw: string) returns (r: Result<seq<string>>)
    ensures r == CheckHostList(hosts, allowRaw, limitRaw)
    ensures r.Ok? <==> hosts != [] && |hosts| <= EffectiveMaxHosts(limitRaw) && AllValid(hosts, allowRaw)
    ensures r.Ok? ==> r.value == Dedupe(hosts)
    ensures r.Raises? ==> r.error.ValueError?
    ensures |hosts| > EffectiveMaxHosts(limitRaw) && hosts != [] ==>
              r == Raises(ValueError("hosts count " + NatStr(|hosts|) + " exceeds limit "
                                     + IntStr(EffectiveMaxHosts(limitRaw)) + " (LINUX_INFO_MAX_HOSTS, hard max 25)"))
  {
    if hosts == [] {
      return Raises(ValueError("hosts must be a non-empty list"));
    }
    var limit := EffectiveMaxHosts(limitRaw);
    if |hosts| > limit {
      return Raises(TooMany(|hosts|, limit));
    }
    var out: seq<string> := [];
    var seen: set<string> := {};
    for i := 0 to |hosts|
      invariant out == Dedupe(hosts[..i])
      invariant seen == set h | h in out
      invariant FirstRefusal(hosts[..i], allowRaw) == None
    {
      var vh := ValidateHost(hosts[i], allowRaw);
      assert hosts[..i + 1][..i] == hosts[..i];
      if vh.Raises? {
        RefusalStands(hosts, allowRaw, i + 1);
        return Raises(vh.error);
      }
      if vh.value !in seen {
        seen := seen + {vh.value};
        out := out + [vh.value];
      }
    }
    assert hosts[..|hosts|] == hosts;
    r := Ok(out);
  }

  /** The first refusal of a prefix is that of the list. */
  lemma {:induction false} RefusalStands(hosts: seq<string>, allowRaw: string, n: nat)
    requires n <= |hosts| && FirstRefusal(hosts[..n], allowRaw).Some?
    ensures FirstRefusal(hosts, allowRaw) == FirstRefusal(hosts[..n], allowRaw)
    decreases |hosts|
  {
    if n == |hosts| {
      assert hosts[..n] == hosts;
    } else {
      RefusalStands(hosts[..|hosts| - 1], allowRaw, n);
      assert hosts[..|hosts| - 1][..n] == hosts[..n];
    }
  }

  predicate NoDuplicates(s: seq<string>) { forall i, j | 0 <= i < j < |s| :: s[i] != s[j] }

  /** The position of the first occurrence. */
  function FirstIndex(s: seq<string>, h: string): (i: nat)
    requires h in s
    ensures i < |s| && s[i] == h && h !in s[..i]
  {
    if s[0] == h then 0 else 1 + FirstIndex(s[1..], h)
  }

  lemma {:induction false} FirstIndexIs(s: seq<string>, h: string, i: nat)
    requires i < |s| && s[i] == h && h !in s[..i]
    ensures h in s && FirstIndex(s, h) == i
  {
    if i > 0 {
      assert s[0] == s[..i][0] && s[1..][..i - 1] == s[..i][1..];
      FirstIndexIs(s[1..], h, i - 1);
    }
  }

  lemma {:induction false} FirstIndexInPrefix(s: seq<string>, k: nat, h: string)
    requires k <= |s| && h in s[..k]
    ensures FirstIndex(s, h) == FirstIndex(s[..k], h) < k
  {
    var j := FirstIndex(s[..k], h);
    assert s[..j] == s[..k][..j];
    FirstIndexIs(s, h, j);
  }

  /** No duplicates, the same hosts, and first occurrences in their original order. */
  lemma {:induction false} DedupeKeepsFirsts(hosts: seq<string>)
    ensures NoDuplicates(Dedupe(hosts)) && |Dedupe(hosts)| <= |hosts|
    ensures forall h :: h in Dedupe(hosts) <==> h in hosts
    ensures forall i, j | 0 <= i < j < |Dedupe(hosts)| ::
              FirstIndex(hosts, Dedupe(hosts)[i]) < FirstIndex(hosts, Dedupe(hosts)[j])
  {
    if hosts != [] {
      var n := |hosts| - 1;
      var front, last := hosts[..n], hosts[n];
      DedupeKeepsFirsts(front);
      assert forall h :: h in hosts <==> h in front || h == last;
      var out := Dedupe(front);
      forall i | 0 <= i < |out| ensures FirstIndex(hosts, out[i]) == FirstIndex(front, out[i]) < n {
        FirstIndexInPrefix(hosts, n, out[i]);
      }
      if last !in out {
        FirstIndexIs(hosts, last, n);
      }
    }
  }

  /** A list without duplicates is left alone. */
  lemma {:induction false} DedupeFixed(hosts: seq<string>)
    requires NoDuplicates(hosts)
    ensures Dedupe(hosts) == hosts
  {
    if hosts != [] {
      DedupeFixed(hosts[..|hosts| - 1]);
    }
  }

  lemma {:induction false} DedupeKeepsValid(hosts: seq<string>, allowRaw: string)
    requires AllValid(hosts, allowRaw)
    ensures AllValid(Dedupe(hosts), allowRaw)
  {
    if hosts != [] {
      DedupeKeepsValid(hosts[..|hosts| - 1], allowRaw);
    }
  }

  /** The list a call works on passes a second validation unchanged. */
  lemma {:induction false} SecondValidation(hosts: seq<string>, allowRaw: string, limitRaw: string)
    requires hosts != [] && |hosts| <= EffectiveMaxHosts(limitRaw) && AllValid(hosts, allowRaw)
    ensures Dedupe(hosts) != [] && |Dedupe(hosts)| <= EffectiveMaxHosts(limitRaw) <= HARD_MAX_HOSTS
    ensures AllValid(Dedupe(hosts), allowRaw) && Dedupe(Dedupe(hosts)) == Dedupe(hosts)
  {
    LimitsAreClamped(limitRaw, 0);
    DedupeKeepsFirsts(hosts);
    DedupeFixed(Dedupe(hosts));
    assert hosts[0] in hosts;
    DedupeKeepsValid(hosts, allowRaw);
  }

  // ----- target resolution

  datatype Targets = Targets(hosts: seq<string>, isMulti: bool)

  /** The targets of a call, None when it is refused; None also stands for an absent or null argument. */
  function TargetsOf(host: Option<string>, hosts: Option<seq<string>>, allowRaw: string, limitRaw: string):
    Option<Targets>
  {
    if host.None? && hosts.Some? && hosts.value != []
       && |hosts.value| <= EffectiveMaxHosts(limitRaw) && AllValid(hosts.value, allowRaw)
    then Some(Targets(Dedupe(hosts.value), true))
    else if hosts.None? && host.Some? && ValidHost(host.value, allowRaw)
    then Some(Targets([host.value], false))
    else None
  }

  /** The targets, or which check refused them. */
  function CheckTargets(host: Option<string>, hosts: Option<seq<string>>, allowRaw: string, limitRaw: string):
    (r: Result<Targets>)
    ensures r.Ok? <==> TargetsOf(host, hosts, allowRaw, limitRaw).Some?
    ensures r.Ok? ==> Some(r.value) == TargetsOf(host, hosts, allowRaw, limitRaw)
    ensures r.Raises? ==> r.error.ValueError?
  {
    if hosts.Some? && host.Some? then Raises(ValueError("provide either 'host' or 'hosts', not both"))
    else if hosts.Some? then
      match CheckHostList(hosts.value, allowRaw, limitRaw)
      case Ok(hs) => Ok(Targets(hs, true))
      case Raises(e) => Raises(e)
    else if host.Some? then
      match ValidateHost(host.value, allowRaw)
      case Ok(h) => Ok(Targets([h], false))
      case Raises(e) => Raises(e)
    else Raises(ValueError("missing required 'host' (or 'hosts')"))
  }

  /** resolve_target_hosts */
  method ResolveTargetHosts(host: Option<string>, hosts: Option<seq<string>>, allowRaw: string, limitRaw: string)
    returns (r: Result<Targets>)
    ensures r == CheckTargets(host, hosts, allowRaw, limitRaw)
    ensures r.Ok? <==> TargetsOf(host, hosts, allowRaw, limitRaw).Some?
    ensures r.Ok? ==> Some(r.value) == TargetsOf(host, hosts, allowRaw, limitRaw)
    ensures r.Raises? ==> r.error.ValueError?
  {
    if hosts.Some? && host.Some? {
      return Raises(ValueError("provide either 'host' or 'hosts', not both"));
    }
    if hosts.Some? {
      var list := ValidateHostList(hosts.value, allowRaw, limitRaw);
      match list {
        case Ok(hs) => return Ok(Targets(hs, true));
        case Raises(e) => return Raises(e);
      }
    }
    if host.Some? {
      match ValidateHost(host.value, allowRaw) {
        case Ok(h) => return Ok(Targets([h], false));
        case Raises(e) => return Raises(e);
      }
    }
    r := Raises(ValueError("missing required 'host' (or 'hosts')"));
  }

  /** Every target of a multi-host call is also a target by itself, and there are at most 25 of them. */
  lemma {:induction false} TargetsStandAlone(hosts: seq<string>, allowRaw: string, limitRaw: string, i: nat)
    requires TargetsOf(None, Some(hosts), allowRaw, limitRaw).Some?
    requires i < |Dedupe(hosts)|
    ensures TargetsOf(Some(Dedupe(hosts)[i]), None, allowRaw, limitRaw) == Some(Targets([Dedupe(hosts)[i]], false))
    ensures |Dedupe(hosts)| <= HARD_MAX_HOSTS
  {
    SecondValidation(hosts, allowRaw, limitRaw);
  }

  // ----- the limits and the allowlist, in literals

  /** 25 at most; 10 hosts and 4 workers where the environment is blank or no positive number. */
  lemma {:induction false} LimitsAre(raw: string, n: int)
    ensures HARD_MAX_HOSTS == 25
    ensures AllSpace(raw) ==> EffectiveMaxHosts(raw) == 10 && Parallelism(raw) == 4
    ensures PyInt(raw) == None ==> EffectiveMaxHosts(raw) == 10 && Parallelism(raw) == 4
    ensures 1 <= n ==> EffectiveMaxHosts(IntStr(n)) == Parallelism(IntStr(n)) == if n <= 25 then n else 25
    ensures n < 1 ==> EffectiveMaxHosts(IntStr(n)) == 10 && Parallelism(IntStr(n)) == 4
  {
    LimitsAreClamped(raw, n);
    StripTwice(raw);
    if AllSpace(raw) {
      LStripGap(raw, "");
      assert raw + "" == raw;
    }
  }

  /** The entries between the commas, stripped, without the blank ones. */
  function Entries(texts: seq<string>): seq<string> {
    if texts == [] then []
    else (if Strip(texts[0]) == "" then [] else [Strip(texts[0])]) + Entries(texts[1..])
  }

  lemma {:induction false} AllowListIs(texts: seq<string>)
    requires texts != [] && forall i | 0 <= i < |texts| :: ',' !in texts[i]
    ensures AllowList(Join(",", texts)) == Entries(texts)
  {
    if |texts| == 1 {
      assert Find(texts[0], ',') == |texts[0]| && texts[0][..|texts[0]|] == texts[0];
      assert Entries(texts[1..]) == [];
    } else {
      var rest := Join(",", texts[1..]);
      assert Join(",", texts) == texts[0] + [','] + rest;
      FindExact(texts[0], ',', rest);
      assert (texts[0] + [','] + rest)[..|texts[0]|] == texts[0];
      assert (texts[0] + [','] + rest)[|texts[0]| + 1..] == rest;
      AllowListIs(texts[1..]);
    }
  }

  /** The texts of the refusals, for those conditions that can be told apart. */
  lemma {:induction false} RefusalsAre(host: string, allowRaw: string)
    ensures host == "" ==> ValidateHost(host, allowRaw) == Raises(ValueError("host must be a non-empty string"))
    ensures 0 as char in host ==> ValidateHost(host, allowRaw) == Raises(ValueError("host contains NUL byte"))
    ensures 0 as char !in host && ('\n' in host || '\r' in host) ==>
              ValidateHost(host, allowRaw) == Raises(ValueError("host contains newline"))
    ensures NoUnsafe(host) && !NoSpace(host) ==>
              ValidateHost(host, allowRaw) == Raises(ValueError("host contains whitespace"))
    ensures host != "" && NoUnsafe(host) && NoSpace(host) && host[0] == '-' ==>
              ValidateHost(host, allowRaw) == Raises(ValueError("host must not start with '-'"))
    ensures host != "" && NoUnsafe(host) && NoSpace(host) && host[0] != '-' && !ValidHost(host, allowRaw) ==>
              ValidateHost(host, allowRaw)
              == Raises(ValueError("host " + Repr(host) + " not in LINUX_INFO_HOSTS allowlist"))
  {}
}
