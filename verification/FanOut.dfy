/**
 The multi-host fan-out (linux_info_mcp/server.py, _run_multi_host): a pool of `workers` threads
 runs one job a host, and the caller puts each result in its host's slot as jobs complete, in
 whatever order they do. The run of a host is any function `job`.
 */
module FanOut {
  import opened Wrappers

  datatype Config<!H, R> = Config(workers: int, hosts: seq<H>, job: H -> R, blank: R)

  /** workers = max(1, min(parallelism, host count)) */
  function Workers(parallelism: int, hostCount: nat): int { Max(1, Min(parallelism, hostCount)) }

  /** The sequential meaning of a fan-out. */
  function MapHosts<H, R>(hosts: seq<H>, job: H -> R): (rs: seq<R>)
    ensures |rs| == |hosts|
    ensures forall i | 0 <= i < |hosts| :: rs[i] == job(hosts[i])
  {
    seq(|hosts|, i requires 0 <= i < |hosts| => job(hosts[i]))
  }

  /**
   `submitted` jobs were handed over, `queue` holds those no worker has taken, `futures` the
   results of those that ended. `started` logs every job a worker has begun, in order.
   */
  datatype State<R> = State(submitted: nat, queue: seq<nat>, running: set<nat>, futures: map<nat, R>,
                            collected: set<nat>, results: seq<R>, started: seq<nat>)

  datatype Action = Submit | Start | End(i: nat) | Collect(i: nat)

  function Init<H, R>(c: Config<H, R>): State<R> {
    State(0, [], {}, map[], {}, seq(|c.hosts|, _ => c.blank), [])
  }

  predicate Enabled<H, R>(c: Config<H, R>, s: State<R>, a: Action) {
    match a
    case Submit => s.submitted < |c.hosts|
    case Start => s.queue != [] && |s.running| < c.workers
    case End(i) => i in s.running && i < |c.hosts|
    case Collect(i) =>
      s.submitted == |c.hosts| && i in s.futures && i !in s.collected && i < |s.results|
  }

  function Apply<H, R>(c: Config<H, R>, s: State<R>, a: Action): State<R>
    requires Enabled(c, s, a)
  {
    match a
    case Submit => s.(submitted := s.submitted + 1, queue := s.queue + [s.submitted])
    case Start => s.(queue := s.queue[1..], running := s.running + {s.queue[0]},
                     started := s.started + [s.queue[0]])
    case End(i) => s.(running := s.running - {i}, futures := s.futures[i := c.job(c.hosts[i])])
    case Collect(i) => s.(collected := s.collected + {i}, results := s.results[i := s.futures[i]])
  }

  predicate Legal<H, R>(c: Config<H, R>, acts: seq<Action>)
    decreases |acts|, 0
  {
    acts != [] ==>
      var before := acts[..|acts| - 1];
      Legal(c, before) && Enabled(c, After(c, before), acts[|acts| - 1])
  }

  function After<H, R>(c: Config<H, R>, acts: seq<Action>): State<R>
    requires Legal(c, acts)
    decreases |acts|, 1
  {
    if acts == [] then Init(c)
    else Apply(c, After(c, acts[..|acts| - 1]), acts[|acts| - 1])
  }

  function Indices(n: nat): (r: seq<nat>)
    ensures |r| == n
    ensures forall k | 0 <= k < n :: r[k] == k
  {
    if n == 0 then [] else Indices(n - 1) + [n - 1]
  }

  function Below(n: nat): (r: set<nat>)
    ensures |r| == n
    ensures forall i: nat :: i in r <==> i < n
  {
    if n == 0 then {} else Below(n - 1) + {n - 1}
  }

  /** Jobs start in the order of submission; the started ones are running or have a future. */
  ghost predicate Scheduled<H, R>(c: Config<H, R>, s: State<R>) {
    && s.submitted <= |c.hosts|
    && s.started + s.queue == Indices(s.submitted)
    && s.running + s.futures.Keys == Below(|s.started|)
    && s.running !! s.futures.Keys
    && |s.running| <= Max(0, c.workers)
  }

  /** A future holds its host's run, and a collected one is in its host's slot. */
  ghost predicate Filled<H, R>(c: Config<H, R>, s: State<R>) {
    && |s.results| == |c.hosts|
    && s.collected <= s.futures.Keys
    && (forall i | i in s.futures :: i < |c.hosts| && s.futures[i] == c.job(c.hosts[i]))
    && (forall i | i in s.collected :: i < |c.hosts| && s.results[i] == s.futures[i])
  }

  lemma {:induction false} Advance(started: seq<nat>, queue: seq<nat>, n: nat, busy: set<nat>, ended: set<nat>)
    requires queue != [] && started + queue == Indices(n)
    requires busy + ended == Below(|started|) && busy !! ended
    ensures started + [queue[0]] + queue[1..] == Indices(n)
    ensures queue[0] == |started| && queue[0] !in busy
    ensures (busy + {queue[0]}) + ended == Below(|started| + 1) && (busy + {queue[0]}) !! ended
  {
    assert (started + queue)[|started|] == queue[0];
    assert started + [queue[0]] + queue[1..] == started + queue;
    assert queue[0] !in busy + ended;
  }

  lemma {:induction false} StartKeepsSchedule<H, R>(c: Config<H, R>, s: State<R>)
    requires Scheduled(c, s) && Enabled(c, s, Start)
    ensures Scheduled(c, Apply(c, s, Start))
  {
    Advance(s.started, s.queue, s.submitted, s.running, s.futures.Keys);
  }

  lemma {:induction false} Retire<R>(busy: set<nat>, futures: map<nat, R>, i: nat, result: R)
    requires i in busy && busy !! futures.Keys
    ensures (busy - {i}) + futures[i := result].Keys == busy + futures.Keys
    ensures (busy - {i}) !! futures[i := result].Keys
    ensures |busy - {i}| < |busy|
  {
    assert futures[i := result].Keys == futures.Keys + {i};
  }

  lemma {:induction false} EndKeepsSchedule<H, R>(c: Config<H, R>, s: State<R>, i: nat)
    requires Scheduled(c, s) && Enabled(c, s, End(i))
    ensures Scheduled(c, Apply(c, s, End(i)))
  {
    Retire(s.running, s.futures, i, c.job(c.hosts[i]));
  }

  lemma {:induction false} SubmitKeepsSchedule<H, R>(c: Config<H, R>, s: State<R>)
    requires Scheduled(c, s) && Enabled(c, s, Submit)
    ensures Scheduled(c, Apply(c, s, Submit))
  {
    assert s.started + (s.queue + [s.submitted]) == (s.started + s.queue) + [s.submitted];
  }

  lemma {:induction false} StepKeepsSchedule<H, R>(c: Config<H, R>, s: State<R>, a: Action)
    requires Scheduled(c, s) && Enabled(c, s, a)
    ensures Scheduled(c, Apply(c, s, a))
  {
    match a {
      case Submit => SubmitKeepsSchedule(c, s);
      case Start => StartKeepsSchedule(c, s);
      case End(i) => EndKeepsSchedule(c, s, i);
      case Collect(i) =>
    }
  }

  lemma {:induction false} StepKeepsFilled<H, R>(c: Config<H, R>, s: State<R>, a: Action)
    requires Filled(c, s) && Enabled(c, s, a)
    ensures Filled(c, Apply(c, s, a))
  {}

  lemma {:induction false} ReachableInv<H, R>(c: Config<H, R>, acts: seq<Action>)
    requires Legal(c, acts)
    ensures Scheduled(c, After(c, acts)) && Filled(c, After(c, acts))
  {
    if acts == [] {
      assert Init(c).futures.Keys == {};
    } else {
      ReachableInv(c, acts[..|acts| - 1]);
      StepKeepsSchedule(c, After(c, acts[..|acts| - 1]), acts[|acts| - 1]);
      StepKeepsFilled(c, After(c, acts[..|acts| - 1]), acts[|acts| - 1]);
    }
  }

  function Work<R>(s: State<R>): nat { s.submitted + |s.started| + |s.futures| + |s.collected| }

  /** Every action is one of the four that a host needs: submit, start, end, collect. */
  lemma {:induction false} WorkDone<H, R>(c: Config<H, R>, acts: seq<Action>)
    requires Legal(c, acts)
    ensures |acts| == Work(After(c, acts))
  {
    if acts != [] {
      var before := acts[..|acts| - 1];
      WorkDone(c, before);
      ReachableInv(c, before);
      var s := After(c, before);
      var a := acts[|acts| - 1];
      if a.End? {
        assert Apply(c, s, a).futures.Keys == s.futures.Keys + {a.i};
      }
    }
  }

  lemma {:induction false} InitialSegment(s: set<nat>, n: nat)
    requires forall i | i in s :: i < n
    ensures |s| <= n
    ensures |s| == n <==> forall i: nat | i < n :: i in s
  {
    if n > 0 {
      InitialSegment(s - {n - 1}, n - 1);
    }
  }

  /** Under every schedule, at most `workers` jobs run at a time and jobs start once, in host order. */
  lemma {:induction false} PoolIsBounded<H, R>(c: Config<H, R>, acts: seq<Action>)
    requires Legal(c, acts)
    ensures |After(c, acts).running| <= Max(0, c.workers)
    ensures After(c, acts).started == Indices(|After(c, acts).started|)
    ensures |acts| <= 4 * |c.hosts|
  {
    ReachableInv(c, acts);
    WorkDone(c, acts);
    var s := After(c, acts);
    assert s.started == (s.started + s.queue)[..|s.started|];
    InitialSegment(s.futures.Keys, |c.hosts|);
    InitialSegment(s.collected, |c.hosts|);
  }

  /** The pool never stops short: while a slot is open, some action is possible. */
  lemma {:induction false} NextStep<H, R>(c: Config<H, R>, acts: seq<Action>) returns (a: Action)
    requires 1 <= c.workers && Legal(c, acts) && |acts| < 4 * |c.hosts|
    ensures Legal(c, acts + [a])
  {
    ReachableInv(c, acts);
    WorkDone(c, acts);
    var s := After(c, acts);
    var n := |c.hosts|;
    if s.submitted < n {
      a := Submit;
    } else if s.running != {} {
      var i :| i in s.running;
      a := End(i);
    } else if s.queue != [] {
      a := Start;
    } else {
      InitialSegment(s.collected, n);
      var i: nat :| i < n && i !in s.collected;
      a := Collect(i);
    }
    assert (acts + [a])[..|acts|] == acts;
  }

  /**
   A run that can go no further has run every host exactly once and filled every slot with the
   run of its own host: the concurrent form refines the sequential map.
   */
  lemma {:induction false} FanOutRefinesMap<H, R>(c: Config<H, R>, acts: seq<Action>)
    requires 1 <= c.workers && Legal(c, acts)
    requires forall a :: !Legal(c, acts + [a])
    ensures After(c, acts).results == MapHosts(c.hosts, c.job)
    ensures After(c, acts).started == Indices(|c.hosts|)
    ensures |acts| == 4 * |c.hosts|
  {
    PoolIsBounded(c, acts);
    if |acts| < 4 * |c.hosts| {
      var a := NextStep(c, acts);
    }
    ReachableInv(c, acts);
    WorkDone(c, acts);
    var s := After(c, acts);
    InitialSegment(s.futures.Keys, |c.hosts|);
    InitialSegment(s.collected, |c.hosts|);
  }

  /**
   The caller's side of the same fan-out: `blank` slots, then one write a completed future, in
   any completion order.
   */
  method RunMultiHost<H, R>(hosts: seq<H>, ghost job: H -> R, futures: map<nat, R>, blank: R)
    returns (results: array<R>)
    requires forall i: nat | i < |hosts| :: i in futures && futures[i] == job(hosts[i])
    requires forall i | i in futures :: i < |hosts|
    ensures fresh(results)
    ensures results[..] == MapHosts(hosts, job)
  {
    results := new R[|hosts|](_ => blank);
    var pending := futures.Keys;
    while pending != {}
      invariant pending <= futures.Keys
      invariant forall i | 0 <= i < |hosts| && i !in pending :: results[i] == job(hosts[i])
      decreases pending
    {
      var i :| i in pending;
      results[i] := futures[i];
      pending := pending - {i};
    }
  }

  /** The number of workers: the limit, but no more than there are hosts, and never none. */
  lemma {:induction false} WorkersAre(parallelism: int, hostCount: nat)
    ensures parallelism < 1 || hostCount == 0 ==> Workers(parallelism, hostCount) == 1
    ensures 1 <= parallelism <= hostCount ==> Workers(parallelism, hostCount) == parallelism
    ensures 1 <= hostCount < parallelism ==> Workers(parallelism, hostCount) == hostCount
  {}

  /** One more job handed over and taken up at once. */
  lemma {:induction false} SubmitAndStart<H, R>(c: Config<H, R>, acts: seq<Action>)
    requires Legal(c, acts) && After(c, acts).queue == [] && |After(c, acts).running| < c.workers
    requires After(c, acts).submitted < |c.hosts| && After(c, acts).submitted !in After(c, acts).running
    ensures var run, s := acts + [Submit] + [Start], After(c, acts);
            && Legal(c, run) && After(c, run).queue == [] && After(c, run).submitted == s.submitted + 1
            && After(c, run).running == s.running + {s.submitted}
  {
    assert (acts + [Submit])[..|acts|] == acts;
    assert (acts + [Submit] + [Start])[..|acts| + 1] == acts + [Submit];
  }

  /** The bound is attained: any number of jobs up to it can run at once. */
  lemma {:induction false} PoolFills<H, R>(c: Config<H, R>, k: nat) returns (acts: seq<Action>)
    requires k <= |c.hosts| && k <= c.workers
    ensures Legal(c, acts) && |After(c, acts).running| == k
    ensures After(c, acts).submitted == k && After(c, acts).queue == [] && After(c, acts).running == Below(k)
  {
    if k == 0 {
      acts := [];
    } else {
      var before := PoolFills(c, k - 1);
      SubmitAndStart(c, before);
      acts := before + [Submit] + [Start];
    }
  }
}
