/**
 The per-call logging context (linux_info_mcp/log.py) and its journey through a tool call
 (linux_info_mcp/server.py, _call_tool and _run_multi_host): a context variable, a record filter,
 and a step system in which reused threads run calls and their workers in any interleaving.
 */
module CallContext {
  import opened Wrappers

  /** The value of the context variable during a call. */
  datatype Ctx = Ctx(tool: string, requestId: string)

  /** contextvars.Token: what the variable held before the matching set. */
  datatype Token = Token(previous: Option<Ctx>)

  // ----- the context variable and the record filter

  class ContextVar {
    var value: Option<Ctx>

    constructor ()
      ensures value == None
    {
      value := None;
    }

    method SetCallCtx(tool: string, freshId: string) returns (token: Token)
      modifies this
      ensures value == Some(Ctx(tool, freshId)) && token == Token(old(value))
    {
      token := Token(value);
      value := Some(Ctx(tool, freshId));
    }

    method ResetCallCtx(token: Token)
      modifies this
      ensures value == token.previous
    {
      value := token.previous;
    }
  }

  /** The attributes the filter adds for a context value. */
  function CtxAttrs(value: Option<Ctx>): map<string, string> {
    match value
    case None => map[]
    case Some(c) => map["tool" := c.tool, "request_id" := c.requestId]
  }

  /** The attributes of a record after the filter: what the record already had wins. */
  function Tagged(attrs: map<string, string>, value: Option<Ctx>): map<string, string> {
    CtxAttrs(value) + attrs
  }

  class LogRecord {
    var pid: Option<nat>
    var attrs: map<string, string>

    constructor (attrs: map<string, string>)
      ensures this.attrs == attrs && pid == None
    {
      this.attrs := attrs;
      pid := None;
    }

    /** _CtxFilter.filter: fills in the pid and every context attribute the record lacks. */
    method Filter(ctx: ContextVar, processId: nat) returns (keep: bool)
      modifies this
      ensures keep
      ensures pid == if old(pid).Some? then old(pid) else Some(processId)
      ensures attrs == Tagged(old(attrs), ctx.value)
    {
      if pid.None? {
        pid := Some(processId);
      }
      var pending := match ctx.value
        case None => []
        case Some(c) => [("tool", c.tool), ("request_id", c.requestId)];
      for i := 0 to |pending|
        invariant pid == if old(pid).Some? then old(pid) else Some(processId)
        invariant forall k | k in old(attrs) :: k in attrs && attrs[k] == old(attrs)[k]
        invariant forall j | 0 <= j < i :: pending[j].0 in attrs
        invariant forall k | k in attrs && k !in old(attrs) ::
                    exists j | 0 <= j < i :: pending[j] == (k, attrs[k])
      {
        if pending[i].0 !in attrs {
          attrs := attrs[pending[i].0 := pending[i].1];
        }
      }
      assert forall j | 0 <= j < |pending| :: CtxAttrs(ctx.value)[pending[j].0] == pending[j].1;
      if ctx.value.Some? {
        assert pending[0].0 in attrs && pending[1].0 in attrs;
      }
      assert attrs.Keys == Tagged(old(attrs), ctx.value).Keys;
      return true;
    }
  }

  // ----- calls, workers and threads

  type CallId = nat

  /**
   A server task or the job of a worker. `owner` is the call it works for, `context` the context object
   it runs in, `base` the value it started with, and `token` what the matching set returned.
   */
  datatype Job = Job(owner: Option<CallId>, context: nat, base: Option<Ctx>, token: Option<Token>)

  /** An OS thread; threads are reused. While it runs a job it has entered a context object. */
  datatype Thread = Idle | Running(job: nat, current: nat)

  /** `owner` is knowledge about who logged; the filter sees only the thread's current context. */
  datatype Entry = Entry(owner: Option<CallId>, attrs: map<string, string>)

  /** `contexts` holds the variable's value in each context object. */
  datatype State = State(contexts: seq<Option<Ctx>>, jobs: seq<Job>, threads: seq<Thread>, calls: seq<Ctx>,
                         log: seq<Entry>)

  datatype Action =
    | NewThread                                    // a pool or the loop starts a thread
    | Accept(base: Option<Ctx>)                    // a task for a new request, with a context of its own
    | Enter(t: nat, job: nat)                      // context.run begins, or the loop resumes the task
    | Exit(t: nat)                                 // it returns, or the task awaits
    | Begin(t: nat, tool: string, requestId: string) // set_call_ctx on that thread
    | Spawn(t: nat)                                // to_thread, or copy_context and submit
    | Log(t: nat, attrs: map<string, string>)
    | Leave(t: nat)                                // the finally clause: reset_call_ctx

  predicate IsRunning(s: State, t: nat) {
    t < |s.threads| && s.threads[t].Running? && s.threads[t].job < |s.jobs| && s.threads[t].current < |s.contexts|
  }

  /** The value that code on a thread sees; outside any entered context the variable is unset. */
  function Seen(s: State, t: nat): Option<Ctx> {
    if IsRunning(s, t) then s.contexts[s.threads[t].current] else None
  }

  function RunBy(s: State, t: nat): Job
    requires IsRunning(s, t)
  {
    s.jobs[s.threads[t].job]
  }

  predicate Enabled(s: State, a: Action) {
    match a
    case NewThread => true
    case Accept(_) => true
    case Enter(t, j) =>
      && t < |s.threads| && s.threads[t].Idle? && j < |s.jobs|
      && (forall u | 0 <= u < |s.threads| && s.threads[u].Running? :: s.threads[u].current != s.jobs[j].context)
    case Exit(t) => IsRunning(s, t)
    case Begin(t, _, id) =>
      && IsRunning(s, t) && RunBy(s, t).owner.None?
      && (forall k | 0 <= k < |s.calls| :: s.calls[k].requestId != id)
    case Spawn(t) => IsRunning(s, t) && RunBy(s, t).owner.Some?
    case Log(t, attrs) => t < |s.threads| && "tool" !in attrs && "request_id" !in attrs
    case Leave(t) => IsRunning(s, t) && RunBy(s, t).token.Some?
  }

  /** The variable is set or reset in the context that the thread has entered. */
  function SetCurrent(s: State, t: nat, value: Option<Ctx>, job: Job): State
    requires IsRunning(s, t)
  {
    s.(contexts := s.contexts[s.threads[t].current := value], jobs := s.jobs[s.threads[t].job := job])
  }

  function Apply(s: State, a: Action): State
    requires Enabled(s, a)
  {
    match a
    case NewThread => s.(threads := s.threads + [Idle])
    case Accept(base) =>
      s.(contexts := s.contexts + [base], jobs := s.jobs + [Job(None, |s.contexts|, base, None)])
    case Enter(t, j) => s.(threads := s.threads[t := Running(j, s.jobs[j].context)])
    case Exit(t) => s.(threads := s.threads[t := Idle])
    case Begin(t, tool, id) =>
      var begun := RunBy(s, t).(owner := Some(|s.calls|), token := Some(Token(Seen(s, t))));
      SetCurrent(s, t, Some(Ctx(tool, id)), begun).(calls := s.calls + [Ctx(tool, id)])
    case Spawn(t) =>
      s.(contexts := s.contexts + [Seen(s, t)],
         jobs := s.jobs + [Job(RunBy(s, t).owner, |s.contexts|, Seen(s, t), None)])
    case Log(t, attrs) =>
      s.(log := s.log + [Entry(if IsRunning(s, t) then RunBy(s, t).owner else None, Tagged(attrs, Seen(s, t)))])
    case Leave(t) =>
      SetCurrent(s, t, RunBy(s, t).token.value.previous, RunBy(s, t).(owner := None, token := None))
  }

  predicate Legal(acts: seq<Action>)
    decreases |acts|, 0
  {
    acts != [] ==>
      var before := acts[..|acts| - 1];
      Legal(before) && Enabled(After(before), acts[|acts| - 1])
  }

  function After(acts: seq<Action>): State
    requires Legal(acts)
    decreases |acts|, 1
  {
    if acts == [] then State([], [], [], [], [])
    else Apply(After(acts[..|acts| - 1]), acts[|acts| - 1])
  }

  /** A job inside a call finds that call's context in its context object, a job outside what it started with. */
  ghost predicate JobInv(s: State, job: Job) {
    && job.context < |s.contexts|
    && match job.owner
       case None => s.contexts[job.context] == job.base && job.token.None?
       case Some(c) =>
         && c < |s.calls| && s.contexts[job.context] == Some(s.calls[c])
         && (job.token.Some? ==> job.token.value.previous == job.base)
  }

  ghost predicate ThreadInv(s: State, t: nat)
    requires t < |s.threads|
  {
    s.threads[t].Running? ==> IsRunning(s, t) && s.threads[t].current == RunBy(s, t).context
  }

  ghost predicate EntryInv(s: State, e: Entry) {
    e.owner.Some? ==>
      && e.owner.value < |s.calls|
      && "tool" in e.attrs && e.attrs["tool"] == s.calls[e.owner.value].tool
      && "request_id" in e.attrs && e.attrs["request_id"] == s.calls[e.owner.value].requestId
  }

  ghost predicate Jobs(s: State) {
    && (forall j | 0 <= j < |s.jobs| :: JobInv(s, s.jobs[j]))
    && (forall i, j | 0 <= i < j < |s.jobs| :: s.jobs[i].context != s.jobs[j].context)
  }

  ghost predicate Threads(s: State) { forall t | 0 <= t < |s.threads| :: ThreadInv(s, t) }

  ghost predicate Logged(s: State) {
    && (forall e | 0 <= e < |s.log| :: EntryInv(s, s.log[e]))
    && (forall k, l | 0 <= k < l < |s.calls| :: s.calls[k].requestId != s.calls[l].requestId)
  }

  ghost predicate Inv(s: State) { Jobs(s) && Threads(s) && Logged(s) }

  /** Setting the variable on one thread changes no other job's context: no two jobs share one. */
  lemma {:induction false} SetKeepsOthers(s: State, t: nat, value: Option<Ctx>, job: Job, i: nat)
    requires Jobs(s) && Threads(s) && IsRunning(s, t) && job.context == RunBy(s, t).context
    requires i < |s.jobs| && i != s.threads[t].job
    ensures var s' := SetCurrent(s, t, value, job);
            s'.jobs[i] == s.jobs[i] && s'.contexts[s.jobs[i].context] == s.contexts[s.jobs[i].context]
  {
    assert ThreadInv(s, t) && JobInv(s, s.jobs[i]);
    var j := s.threads[t].job;
    assert s.jobs[i].context != s.jobs[j].context;
  }

  lemma {:induction false} BeginKeepsInv(s: State, t: nat, tool: string, id: string)
    requires Inv(s) && Enabled(s, Begin(t, tool, id))
    ensures Inv(Apply(s, Begin(t, tool, id)))
  {
    var s' := Apply(s, Begin(t, tool, id));
    var j := s.threads[t].job;
    assert ThreadInv(s, t) && JobInv(s, s.jobs[j]);
    assert forall c | 0 <= c < |s.calls| :: s'.calls[c] == s.calls[c];
    forall i | 0 <= i < |s.jobs| ensures JobInv(s', s'.jobs[i]) {
      assert JobInv(s, s.jobs[i]);
      if i != j { SetKeepsOthers(s, t, Some(Ctx(tool, id)), s'.jobs[j], i); }
    }
    forall u | 0 <= u < |s.threads| ensures ThreadInv(s', u) {
      assert ThreadInv(s, u);
    }
    forall e | 0 <= e < |s.log| ensures EntryInv(s', s'.log[e]) {
      assert EntryInv(s, s.log[e]);
    }
  }

  lemma {:induction false} LeaveKeepsInv(s: State, t: nat)
    requires Inv(s) && Enabled(s, Leave(t))
    ensures Inv(Apply(s, Leave(t)))
  {
    var s' := Apply(s, Leave(t));
    var j := s.threads[t].job;
    assert ThreadInv(s, t) && JobInv(s, s.jobs[j]);
    forall i | 0 <= i < |s.jobs| ensures JobInv(s', s'.jobs[i]) {
      assert JobInv(s, s.jobs[i]);
      if i != j { SetKeepsOthers(s, t, s.jobs[j].token.value.previous, s'.jobs[j], i); }
    }
    forall u | 0 <= u < |s.threads| ensures ThreadInv(s', u) {
      assert ThreadInv(s, u);
    }
    assert forall e | 0 <= e < |s.log| :: EntryInv(s, s.log[e]) ==> EntryInv(s', s'.log[e]);
  }

  /** A new job gets a new context object, so it shares none. */
  lemma {:induction false} AddJobKeepsInv(s: State, value: Option<Ctx>, job: Job)
    requires Inv(s) && job.context == |s.contexts| && job.base == value && job.token.None?
    requires job.owner.Some? ==> job.owner.value < |s.calls| && value == Some(s.calls[job.owner.value])
    ensures Inv(s.(contexts := s.contexts + [value], jobs := s.jobs + [job]))
  {
    var s' := s.(contexts := s.contexts + [value], jobs := s.jobs + [job]);
    forall i | 0 <= i < |s'.jobs|
      ensures JobInv(s', s'.jobs[i]) && (i < |s.jobs| ==> s'.jobs[i].context < |s.contexts|)
    {
      if i < |s.jobs| { assert JobInv(s, s.jobs[i]); }
    }
    forall u | 0 <= u < |s.threads| ensures ThreadInv(s', u) {
      assert ThreadInv(s, u);
    }
    assert forall e | 0 <= e < |s.log| :: EntryInv(s, s.log[e]) ==> EntryInv(s', s'.log[e]);
  }

  /** A record is tagged from the context that its thread has entered, which is that of the running job. */
  lemma {:induction false} LogKeepsInv(s: State, t: nat, attrs: map<string, string>)
    requires Inv(s) && Enabled(s, Log(t, attrs))
    ensures Inv(Apply(s, Log(t, attrs)))
  {
    var s' := Apply(s, Log(t, attrs));
    if IsRunning(s, t) {
      assert ThreadInv(s, t) && JobInv(s, RunBy(s, t));
    }
    assert EntryInv(s', s'.log[|s.log|]);
    forall e | 0 <= e < |s.log| ensures EntryInv(s', s'.log[e]) {
      assert EntryInv(s, s.log[e]);
    }
    assert forall i | 0 <= i < |s.jobs| :: JobInv(s, s.jobs[i]) ==> JobInv(s', s'.jobs[i]);
    assert forall u | 0 <= u < |s.threads| :: ThreadInv(s, u) ==> ThreadInv(s', u);
  }

  /** A thread is as before, or idle, or runs a job in that job's context. */
  ghost predicate Moved(s: State, threads: seq<Thread>) {
    forall t | 0 <= t < |threads| ::
      threads[t].Idle? || (t < |s.threads| && threads[t] == s.threads[t])
      || (threads[t].job < |s.jobs| && threads[t].current == s.jobs[threads[t].job].context)
  }

  lemma {:induction false} MoveKeepsInv(s: State, threads: seq<Thread>)
    requires Inv(s) && Moved(s, threads)
    ensures Inv(s.(threads := threads))
  {
    var s' := s.(threads := threads);
    forall t | 0 <= t < |threads| ensures ThreadInv(s', t) {
      if t < |s.threads| { assert ThreadInv(s, t); }
      if threads[t].Running? && threads[t].job < |s.jobs| { assert JobInv(s, s.jobs[threads[t].job]); }
    }
    assert forall i | 0 <= i < |s.jobs| :: JobInv(s, s.jobs[i]) ==> JobInv(s', s'.jobs[i]);
    assert forall e | 0 <= e < |s.log| :: EntryInv(s, s.log[e]) ==> EntryInv(s', s'.log[e]);
  }

  lemma {:induction false} StepKeepsInv(s: State, a: Action)
    requires Inv(s) && Enabled(s, a)
    ensures Inv(Apply(s, a))
  {
    match a {
      case NewThread => MoveKeepsInv(s, s.threads + [Idle]);
      case Accept(base) => AddJobKeepsInv(s, base, Job(None, |s.contexts|, base, None));
      case Enter(t, j) => MoveKeepsInv(s, s.threads[t := Running(j, s.jobs[j].context)]);
      case Exit(t) => MoveKeepsInv(s, s.threads[t := Idle]);
      case Begin(t, tool, id) => BeginKeepsInv(s, t, tool, id);
      case Spawn(t) =>
        assert ThreadInv(s, t) && JobInv(s, RunBy(s, t));
        AddJobKeepsInv(s, Seen(s, t), Job(RunBy(s, t).owner, |s.contexts|, Seen(s, t), None));
      case Log(t, attrs) => LogKeepsInv(s, t, attrs);
      case Leave(t) => LeaveKeepsInv(s, t);
    }
  }

  lemma {:induction false} ReachableInv(acts: seq<Action>)
    requires Legal(acts)
    ensures Inv(After(acts))
  {
    if acts != [] {
      ReachableInv(acts[..|acts| - 1]);
      StepKeepsInv(After(acts[..|acts| - 1]), acts[|acts| - 1]);
    }
  }

  /** On whatever thread a job runs, it sees its own call's context, or outside a call its own base. */
  lemma {:induction false} ThreadsSeeTheirJob(acts: seq<Action>, t: nat)
    requires Legal(acts) && IsRunning(After(acts), t)
    ensures var s := After(acts);
            var job := RunBy(s, t);
            && (job.owner.Some? ==> job.owner.value < |s.calls|)
            && Seen(s, t) == if job.owner.Some? then Some(s.calls[job.owner.value]) else job.base
  {
    ReachableInv(acts);
    assert ThreadInv(After(acts), t) && JobInv(After(acts), RunBy(After(acts), t));
  }

  /** Every record logged for a call, by its task or any worker, carries that call's tool and id. */
  lemma {:induction false} RecordsAreTagged(acts: seq<Action>, e: nat)
    requires Legal(acts) && e < |After(acts).log| && After(acts).log[e].owner.Some?
    ensures var s := After(acts);
            var entry := s.log[e];
            && entry.owner.value < |s.calls|
            && Tagged(entry.attrs, Some(s.calls[entry.owner.value])) == entry.attrs
            && "tool" in entry.attrs && entry.attrs["tool"] == s.calls[entry.owner.value].tool
  {
    ReachableInv(acts);
    assert EntryInv(After(acts), After(acts).log[e]);
  }

  /** Two records logged inside calls carry the same request id exactly when the call is the same. */
  lemma {:induction false} RequestIdNamesTheCall(acts: seq<Action>, e: nat, f: nat)
    requires Legal(acts) && e < |After(acts).log| && f < |After(acts).log|
    requires After(acts).log[e].owner.Some? && After(acts).log[f].owner.Some?
    ensures var log := After(acts).log;
            && "request_id" in log[e].attrs && "request_id" in log[f].attrs
            && (log[e].attrs["request_id"] == log[f].attrs["request_id"] <==> log[e].owner == log[f].owner)
  {
    ReachableInv(acts);
    assert EntryInv(After(acts), After(acts).log[e]) && EntryInv(After(acts), After(acts).log[f]);
  }

  /** However a call ends, and whatever ran meanwhile, its task then sees the context it started with. */
  lemma {:induction false} LeaveRestores(acts: seq<Action>, t: nat)
    requires Legal(acts + [Leave(t)])
    ensures Legal(acts) && IsRunning(After(acts), t)
    ensures Seen(After(acts + [Leave(t)]), t) == RunBy(After(acts), t).base
  {
    assert (acts + [Leave(t)])[..|acts|] == acts;
    ReachableInv(acts);
    assert ThreadInv(After(acts), t) && JobInv(After(acts), RunBy(After(acts), t));
  }

  /** The value in a job's own context object. */
  function Held(s: State, j: nat): Option<Ctx> {
    if j < |s.jobs| && s.jobs[j].context < |s.contexts| then s.contexts[s.jobs[j].context] else None
  }

  lemma {:induction false} StepKeepsWorker(s: State, a: Action, j: nat)
    requires Inv(s) && Enabled(s, a) && j < |s.jobs| && s.jobs[j].owner.Some? && s.jobs[j].token.None?
    ensures Apply(s, a).jobs[j] == s.jobs[j] && Held(Apply(s, a), j) == Held(s, j)
  {
    assert JobInv(s, s.jobs[j]);
    if a.Begin? {
      SetKeepsOthers(s, a.t, Some(Ctx(a.tool, a.requestId)), Apply(s, a).jobs[s.threads[a.t].job], j);
    } else if a.Leave? {
      SetKeepsOthers(s, a.t, RunBy(s, a.t).token.value.previous, Apply(s, a).jobs[s.threads[a.t].job], j);
    }
  }

  /** A worker keeps the context of the call that spawned it, also after that call has left. */
  lemma {:induction false} WorkerKeepsContext(acts: seq<Action>, more: seq<Action>, j: nat)
    requires Legal(acts) && Legal(acts + more) && j < |After(acts).jobs|
    requires After(acts).jobs[j].owner.Some? && After(acts).jobs[j].token.None?
    ensures j < |After(acts + more).jobs| && After(acts + more).jobs[j] == After(acts).jobs[j]
    ensures Held(After(acts + more), j) == Held(After(acts), j)
    decreases |more|
  {
    if more == [] {
      assert acts + more == acts;
    } else {
      var before := acts + more[..|more| - 1];
      assert (acts + more)[..|acts + more| - 1] == before;
      WorkerKeepsContext(acts, more[..|more| - 1], j);
      ReachableInv(before);
      StepKeepsWorker(After(before), more[|more| - 1], j);
    }
  }

  // ----- a run

  lemma {:induction false} Extend(acts: seq<Action>, a: Action)
    requires Legal(acts) && Enabled(After(acts), a)
    ensures Legal(acts + [a]) && After(acts + [a]) == Apply(After(acts), a)
  {
    assert (acts + [a])[..|acts|] == acts;
  }

  /** A call begins on a new thread and starts a worker. */
  lemma {:induction false} CallCanBegin(tool: string, id: string) returns (acts: seq<Action>)
    ensures Legal(acts)
    ensures var s, ctx := After(acts), Some(Ctx(tool, id));
            s == State([ctx, ctx], [Job(Some(0), 0, None, Some(Token(None))), Job(Some(0), 1, ctx, None)],
                       [Running(0, 0)], [Ctx(tool, id)], [])
  {
    var a1, a2 := [NewThread], [NewThread] + [Accept(None)];
    var a3 := a2 + [Enter(0, 0)];
    var a4 := a3 + [Begin(0, tool, id)];
    Extend([], NewThread);
    assert [] + [NewThread] == a1;
    Extend(a1, Accept(None));
    Extend(a2, Enter(0, 0));
    Extend(a3, Begin(0, tool, id));
    Extend(a4, Spawn(0));
    acts := a4 + [Spawn(0)];
  }

  lemma {:induction false} CallCanLog(tool: string, id: string) returns (acts: seq<Action>)
    ensures Legal(acts)
    ensures var s, ctx := After(acts), Some(Ctx(tool, id));
            s == State([ctx, ctx], [Job(Some(0), 0, None, Some(Token(None))), Job(Some(0), 1, ctx, None)],
                       [Running(0, 0)], [Ctx(tool, id)], [Entry(Some(0), map["tool" := tool, "request_id" := id])])
  {
    var begun := CallCanBegin(tool, id);
    Extend(begun, Log(0, map[]));
    acts := begun + [Log(0, map[])];
    assert Tagged(map[], Some(Ctx(tool, id))) == map["tool" := tool, "request_id" := id];
  }

  /** The same thread can serve the call and then its worker, and both records carry the call's tags. */
  lemma {:induction false} ThreadCanBeReused(tool: string, id: string) returns (acts: seq<Action>)
    ensures Legal(acts) && |After(acts).threads| == 1
    ensures var entry := Entry(Some(0), map["tool" := tool, "request_id" := id]);
            After(acts).log == [entry, entry]
  {
    var logged := CallCanLog(tool, id);
    Extend(logged, Exit(0));
    Extend(logged + [Exit(0)], Enter(0, 1));
    var entered := logged + [Exit(0)] + [Enter(0, 1)];
    Extend(entered, Log(0, map[]));
    acts := entered + [Log(0, map[])];
    assert Tagged(map[], Some(Ctx(tool, id))) == map["tool" := tool, "request_id" := id];
  }
}
