/**
 Bounded capture of a child's output (linux_info_mcp/ssh.py). The drain loop and the end of
 run_ssh are methods; the child, its two pipes, the two drain threads and the waiting parent
 are a step system whose runs are arbitrary interleavings.
 */
module Capture {
  import opened Wrappers

  type posnat = n: int | 0 < n witness 1

  const CHUNK := 65536

  /** The bytes of "\n[timeout]". */
  const TIMEOUT_MARKER: seq<byte> := [10, 91, 116, 105, 109, 101, 111, 117, 116, 93]

  const TIMEOUT_EXIT_CODE := 124

  /** What a drain thread leaves behind: the bytes kept and whether there were more. */
  datatype Box = Box(data: seq<byte>, over: bool)

  /** The first `cap` bytes of a stream; no byte at all when the cap is negative. */
  function FirstBytes(stream: seq<byte>, cap: int): seq<byte> {
    stream[..Max(0, Min(cap, |stream|))]
  }

  function Bounded(stream: seq<byte>, cap: int): Box { Box(FirstBytes(stream, cap), |stream| > cap) }

  /** The number of bytes after which a drain stops reading. */
  function Target(cap: int): nat { Max(0, cap + 1) }

  // ----- draining one pipe

  /** The file object at the reading end. */
  class Pipe {
    /** The bytes the reader has yet to receive before it sees end of file. */
    var unread: seq<byte>

    /** A read may return fewer bytes than asked for; it returns none only at end of file. */
    method Read(n: nat) returns (chunk: seq<byte>)
      requires 0 < n
      modifies this
      ensures chunk + unread == old(unread)
      ensures |chunk| <= n
      ensures chunk == [] ==> unread == []
    {
      var wish: nat := *;
      var most := Min(n, |unread|);
      var k := if 0 < wish <= most then wish else most;
      chunk, unread := unread[..k], unread[k..];
    }
  }

  function Flatten(chunks: seq<seq<byte>>): seq<byte> {
    if chunks == [] then [] else Flatten(chunks[..|chunks| - 1]) + chunks[|chunks| - 1]
  }

  /**
   Whatever the sizes of the reads, the result is the first `cap` bytes of the stream with an
   exact overflow flag, and no byte beyond the target is taken from the pipe.
   */
  method ReadBounded(pipe: Pipe, cap: int) returns (data: seq<byte>, overflowed: bool)
    modifies pipe
    ensures Box(data, overflowed) == Bounded(old(pipe.unread), cap)
    ensures pipe.unread == old(pipe.unread)[Min(Target(cap), |old(pipe.unread)|)..]
  {
    var chunks: seq<seq<byte>> := [];
    var total := 0;
    var target := cap + 1;
    while total < target
      invariant total == |Flatten(chunks)| <= Target(cap)
      invariant Flatten(chunks) + pipe.unread == old(pipe.unread)
      decreases target - total
    {
      var chunk := pipe.Read(Min(CHUNK, target - total));
      if chunk == [] {
        break;
      }
      chunks := chunks + [chunk];
      assert chunks[..|chunks| - 1] + [chunk] == chunks;
      total := total + |chunk|;
    }
    data := Flatten(chunks);
    if |data| > cap {
      return PyTake(data, cap), true;
    }
    return data, false;
  }

  // ----- the end of run_ssh

  datatype SshResult = SshResult(stdout: seq<byte>, stderr: seq<byte>, exitCode: int,
                                 truncated: bool, stderrTruncated: bool)

  /**
   The result made of the two boxes; None means that the join deadline passed first. On a timeout
   the marker is appended to stderr and the text is cut again.
   */
  function ResultOf(cap: int, timedOut: bool, outBox: Option<Box>, errBox: Option<Box>, returnCode: int): SshResult {
    var out := if outBox.Some? then outBox.value else Box([], false);
    var err := if errBox.Some? then errBox.value else Box([], false);
    if timedOut then
      var text := err.data + TIMEOUT_MARKER;
      SshResult(out.data, if |text| > cap then PyTake(text, cap) else text, TIMEOUT_EXIT_CODE,
                out.over, err.over || |text| > cap)
    else
      SshResult(out.data, err.data, returnCode, out.over, err.over)
  }

  method Finish(cap: int, timedOut: bool, outBox: Option<Box>, errBox: Option<Box>, returnCode: int)
    returns (r: SshResult)
    ensures r == ResultOf(cap, timedOut, outBox, errBox, returnCode)
  {
    var out := if outBox.Some? then outBox.value else Box([], false);
    var err := if errBox.Some? then errBox.value else Box([], false);
    var stderr, stderrOver := err.data, err.over;
    var exitCode;
    if timedOut {
      exitCode := TIMEOUT_EXIT_CODE;
      stderr := stderr + TIMEOUT_MARKER;
      if |stderr| > cap {
        stderr := PyTake(stderr, cap);
        stderrOver := true;
      }
    } else {
      exitCode := returnCode;
    }
    r := SshResult(out.data, stderr, exitCode, out.over, stderrOver);
  }

  /**
   After a timeout stderr is the first `cap` bytes of the raw text and the marker, although it was
   cut before and after the marker was added; a clear flag means that the marker is there in full.
   A missing box counts as an empty text.
   */
  lemma {:induction false} TimedOutStderr(cap: nat, outBox: Option<Box>, errBox: Option<Box>, raw: seq<byte>,
      returnCode: int)
    requires errBox == Some(Bounded(raw, cap)) || (errBox == None && raw == [])
    ensures var r := ResultOf(cap, true, outBox, errBox, returnCode);
            && Box(r.stderr, r.stderrTruncated) == Bounded(raw + TIMEOUT_MARKER, cap)
            && r.exitCode == TIMEOUT_EXIT_CODE
  {
    var text := FirstBytes(raw, cap) + TIMEOUT_MARKER;
    assert FirstBytes(raw + TIMEOUT_MARKER, cap) == if |text| > cap then PyTake(text, cap) else text;
  }

  // ----- the protocol

  datatype Stream = Out | Err

  datatype Write = Write(to: Stream, value: byte)

  /**
   `room` is what a pipe can hold, `ahead` how far a buffered reader may read past what its drain
   asked for, and `program` the child's output in the order it is written, each byte to either stream.
   */
  datatype Config = Config(cap: int, room: posnat, ahead: nat, program: seq<Write>)

  /** A pipe, what its drain thread has taken from it, and the thread's box. */
  datatype Lane = Lane(pipe: seq<byte>, data: seq<byte>, box: Option<Box>)

  datatype Phase = Waiting | JoiningOut | JoiningErr | Done(outBox: Option<Box>, errBox: Option<Box>)

  datatype State = State(todo: seq<Write>, alive: bool, out: Lane, err: Lane,
                         phase: Phase, timedOut: bool, expired: bool)
  {
    function At(x: Stream): Lane { if x == Out then out else err }

    function With(x: Stream, lane: Lane): State {
      if x == Out then this.(out := lane) else this.(err := lane)
    }
  }

  datatype Action =
    | Emit                        // the child writes its next byte
    | Exit                        // the child ends and both write ends close
    | Receive(from: Stream, n: nat)
    | Fill(which: Stream)         // a drain thread ends
    | Reaped                      // wait() returns
    | TimedOut                    // wait() times out; the child is killed and reaped
    | Joined(expired: bool)       // the next join returns, perhaps at its deadline

  function Init(c: Config): State {
    State(c.program, true, Lane([], [], None), Lane([], [], None), Waiting, false, false)
  }

  predicate Enabled(c: Config, s: State, a: Action) {
    !s.phase.Done? &&
    match a
    case Emit => s.alive && s.todo != [] && |s.At(s.todo[0].to).pipe| < c.room
    case Exit => s.alive && s.todo == []
    case Receive(x, n) =>
      && s.At(x).box.None? && |s.At(x).data| < Target(c.cap)
      && 1 <= n <= Min(CHUNK, Target(c.cap) - |s.At(x).data|) + c.ahead && n <= |s.At(x).pipe|
    case Fill(x) =>
      s.At(x).box.None? && (|s.At(x).data| >= Target(c.cap) || (!s.alive && s.At(x).pipe == []))
    case Reaped => s.phase.Waiting? && !s.alive
    case TimedOut => s.phase.Waiting?
    case Joined(late) =>
      || (s.phase.JoiningOut? && (late || s.out.box.Some?))
      || (s.phase.JoiningErr? && (late || s.err.box.Some?))
  }

  function Apply(c: Config, s: State, a: Action): State
    requires Enabled(c, s, a)
  {
    match a
    case Emit =>
      var lane := s.At(s.todo[0].to);
      s.With(s.todo[0].to, lane.(pipe := lane.pipe + [s.todo[0].value])).(todo := s.todo[1..])
    case Exit => s.(alive := false)
    case Receive(x, n) =>
      var lane := s.At(x);
      s.With(x, lane.(pipe := lane.pipe[n..], data := lane.data + lane.pipe[..n]))
    case Fill(x) => s.With(x, s.At(x).(box := Some(Bounded(s.At(x).data, c.cap))))
    case Reaped => s.(phase := JoiningOut)
    case TimedOut => s.(phase := JoiningOut, alive := false, timedOut := true)
    case Joined(late) =>
      s.(expired := s.expired || late,
         phase := if s.phase.JoiningOut? then JoiningErr else Done(s.out.box, s.err.box))
  }

  /** `acts` can be performed in this order from the initial state. */
  predicate Legal(c: Config, acts: seq<Action>)
    decreases |acts|, 0
  {
    acts != [] ==>
      var before := acts[..|acts| - 1];
      Legal(c, before) && Enabled(c, After(c, before), acts[|acts| - 1])
  }

  function After(c: Config, acts: seq<Action>): State
    requires Legal(c, acts)
    decreases |acts|, 1
  {
    if acts == [] then Init(c)
    else Apply(c, After(c, acts[..|acts| - 1]), acts[|acts| - 1])
  }

  /** The bytes that a program writes to one stream. */
  function Written(program: seq<Write>, x: Stream): seq<byte> {
    if program == [] then []
    else (if program[0].to == x then [program[0].value] else []) + Written(program[1..], x)
  }

  ghost predicate LaneInv(c: Config, s: State, x: Stream) {
    var lane := s.At(x);
    && lane.data + lane.pipe + Written(s.todo, x) == Written(c.program, x)
    && |lane.pipe| <= c.room
    && |lane.data| <= Target(c.cap) + c.ahead
    && (lane.box.Some? ==>
          && lane.box == Some(Bounded(lane.data, c.cap))
          && (|lane.data| >= Target(c.cap) || (!s.alive && lane.pipe == [])))
  }

  ghost predicate Phases(s: State) {
    && (!s.alive && !s.timedOut ==> s.todo == [])
    && (s.timedOut || !s.phase.Waiting? ==> !s.alive)
    && (s.timedOut ==> !s.phase.Waiting?)
    && (!s.expired && s.phase.JoiningErr? ==> s.out.box.Some?)
    && (s.phase.Done? ==> s.phase.outBox == s.out.box && s.phase.errBox == s.err.box)
    && (s.phase.Done? && !s.expired ==> s.phase.outBox.Some? && s.phase.errBox.Some?)
  }

  ghost predicate Inv(c: Config, s: State) { LaneInv(c, s, Out) && LaneInv(c, s, Err) && Phases(s) }

  lemma {:induction false} EmitKeepsLane(c: Config, s: State, x: Stream)
    requires LaneInv(c, s, x) && Enabled(c, s, Emit)
    ensures LaneInv(c, Apply(c, s, Emit), x)
  {
    var was, now := s.At(x), Apply(c, s, Emit).At(x);
    var first := if s.todo[0].to == x then [s.todo[0].value] else [];
    assert Written(s.todo, x) == first + Written(s.todo[1..], x);
    assert now.pipe == was.pipe + first;
    MoveAcross(was.data, was.pipe, first, Written(s.todo[1..], x));
  }

  lemma {:induction false} MoveAcross(data: seq<byte>, pipe: seq<byte>, first: seq<byte>, later: seq<byte>)
    ensures data + (pipe + first) + later == data + pipe + (first + later)
  {}

  lemma {:induction false} ReceiveKeepsLane(c: Config, s: State, from: Stream, n: nat, x: Stream)
    requires LaneInv(c, s, x) && Enabled(c, s, Receive(from, n))
    ensures LaneInv(c, Apply(c, s, Receive(from, n)), x)
  {
    var was, now := s.At(x), Apply(c, s, Receive(from, n)).At(x);
    if from == x {
      assert now.data + now.pipe == was.data + was.pipe by {
        assert was.pipe == was.pipe[..n] + was.pipe[n..];
      }
    }
  }

  lemma {:induction false} FillKeepsLane(c: Config, s: State, which: Stream, x: Stream)
    requires LaneInv(c, s, x) && Enabled(c, s, Fill(which))
    ensures LaneInv(c, Apply(c, s, Fill(which)), x)
  {}

  lemma {:induction false} StepKeepsLane(c: Config, s: State, a: Action, x: Stream)
    requires LaneInv(c, s, x) && Enabled(c, s, a)
    ensures LaneInv(c, Apply(c, s, a), x)
  {
    match a {
      case Emit => EmitKeepsLane(c, s, x);
      case Receive(from, n) => ReceiveKeepsLane(c, s, from, n, x);
      case Fill(which) => FillKeepsLane(c, s, which, x);
      case Joined(late) => assert Apply(c, s, a).At(x) == s.At(x);
      case _ =>
    }
  }

  lemma {:induction false} StepKeepsPhases(c: Config, s: State, a: Action)
    requires Phases(s) && Enabled(c, s, a)
    ensures Phases(Apply(c, s, a))
  {}

  lemma {:induction false} StepKeepsInv(c: Config, s: State, a: Action)
    requires Inv(c, s) && Enabled(c, s, a)
    ensures Inv(c, Apply(c, s, a))
  {
    StepKeepsLane(c, s, a, Out);
    StepKeepsLane(c, s, a, Err);
    StepKeepsPhases(c, s, a);
  }

  lemma {:induction false} ReachableInv(c: Config, acts: seq<Action>)
    requires Legal(c, acts)
    ensures Inv(c, After(c, acts))
  {
    if acts != [] {
      ReachableInv(c, acts[..|acts| - 1]);
      StepKeepsInv(c, After(c, acts[..|acts| - 1]), acts[|acts| - 1]);
    }
  }

  // ----- termination

  function PhaseRank(p: Phase): nat {
    match p case Waiting => 3 case JoiningOut => 2 case JoiningErr => 1 case Done(_, _) => 0
  }

  function LaneRank(lane: Lane): nat { |lane.pipe| + if lane.box.None? then 1 else 0 }

  function Rank(s: State): nat {
    2 * |s.todo| + LaneRank(s.out) + LaneRank(s.err) + (if s.alive then 1 else 0) + PhaseRank(s.phase)
  }

  lemma {:induction false} EmitLowersRank(c: Config, s: State)
    requires Enabled(c, s, Emit)
    ensures Rank(Apply(c, s, Emit)) < Rank(s)
  {
    var x := s.todo[0].to;
    assert |Apply(c, s, Emit).At(x).pipe| == |s.At(x).pipe| + 1;
  }

  lemma {:induction false} ReceiveLowersRank(c: Config, s: State, x: Stream, n: nat)
    requires Enabled(c, s, Receive(x, n))
    ensures Rank(Apply(c, s, Receive(x, n))) < Rank(s)
  {
    assert |Apply(c, s, Receive(x, n)).At(x).pipe| == |s.At(x).pipe| - n;
  }

  lemma {:induction false} StepLowersRank(c: Config, s: State, a: Action)
    requires Enabled(c, s, a)
    ensures Rank(Apply(c, s, a)) < Rank(s)
  {
    match a {
      case Emit => EmitLowersRank(c, s);
      case Receive(x, n) => ReceiveLowersRank(c, s, x, n);
      case _ =>
    }
  }

  /** Every step lowers the rank, so a capture takes at most 2 * |program| + 6 steps. */
  lemma {:induction false} RunsAreFinite(c: Config, acts: seq<Action>)
    requires Legal(c, acts)
    ensures |acts| + Rank(After(c, acts)) <= Rank(Init(c)) == 2 * |c.program| + 6
  {
    if acts != [] {
      RunsAreFinite(c, acts[..|acts| - 1]);
      StepLowersRank(c, After(c, acts[..|acts| - 1]), acts[|acts| - 1]);
    }
  }

  // ----- progress

  predicate Impatient(a: Action) { a.TimedOut? || (a.Joined? && a.expired) }

  predicate Patient(acts: seq<Action>) { forall i | 0 <= i < |acts| :: !Impatient(acts[i]) }

  /** Nothing can happen any more, except that a deadline passes. */
  ghost predicate Quiet(c: Config, s: State) {
    forall a :: Enabled(c, s, a) ==> Impatient(a)
  }

  /** Each stream fits in what its drain takes, `extra` bytes ahead, and what its pipe can hold. */
  predicate FitsWithin(c: Config, extra: nat) {
    && |Written(c.program, Out)| <= Target(c.cap) + extra + c.room
    && |Written(c.program, Err)| <= Target(c.cap) + extra + c.room
  }

  /** The streams fit even if nothing is read ahead. */
  predicate Fits(c: Config) { FitsWithin(c, 0) }

  /** No deadlock: when the streams fit, an unfinished capture has a step to take. */
  lemma {:induction false} NextStep(c: Config, s: State) returns (a: Action)
    requires Inv(c, s) && !s.phase.Done? && Fits(c)
    ensures Enabled(c, s, a) && !Impatient(a)
  {
    var x := if s.alive && s.todo != [] then s.todo[0].to
             else if s.phase.JoiningErr? then Err else Out;
    var lane := s.At(x);
    assert LaneInv(c, s, x);
    if lane.box.None? && |lane.data| < Target(c.cap) && lane.pipe != [] {
      a := Receive(x, 1);
    } else if lane.box.None? && (|lane.data| >= Target(c.cap) || !s.alive) {
      a := Fill(x);
    } else if s.alive {
      a := if s.todo == [] then Exit else Emit;
    } else {
      a := if s.phase.Waiting? then Reaped else Joined(false);
    }
  }

  lemma {:induction false} PatientRunsDoNotExpire(c: Config, acts: seq<Action>)
    requires Legal(c, acts) && Patient(acts)
    ensures !After(c, acts).timedOut && !After(c, acts).expired
  {
    if acts != [] { PatientRunsDoNotExpire(c, acts[..|acts| - 1]); }
  }

  /** What the drain of a stream has taken and what its pipe can hold cover the whole stream. */
  predicate Covered(c: Config, s: State, x: Stream) { |Written(c.program, x)| <= |s.At(x).data| + c.room }

  /**
   A run that no deadline cuts short and that can go no further has finished exactly when what was
   read, and no more than a full pipe besides, covers both streams. So it has finished whenever the
   streams fit without read-ahead, for every read-ahead; and when a stream exceeds even the most that
   can be read ahead, the child is blocked for good and only the timeout ends the call.
   */
  lemma {:induction false} PatientRunOutcome(c: Config, acts: seq<Action>)
    requires Legal(c, acts) && Patient(acts) && Quiet(c, After(c, acts))
    ensures var s := After(c, acts); s.phase.Done? <==> Covered(c, s, Out) && Covered(c, s, Err)
    ensures Fits(c) ==> After(c, acts).phase.Done?
    ensures !FitsWithin(c, c.ahead) ==> !After(c, acts).phase.Done?
    ensures !After(c, acts).phase.Done? ==> After(c, acts).alive && After(c, acts).todo != []
  {
    var s := After(c, acts);
    ReachableInv(c, acts);
    PatientRunsDoNotExpire(c, acts);
    if Fits(c) && !s.phase.Done? {
      var a := NextStep(c, s);
    }
    if !s.phase.Done? {
      BlockedChild(c, s);
    }
  }

  /** Where only a deadline can act, the child waits for room in the pipe of a stream not covered. */
  lemma {:induction false} BlockedChild(c: Config, s: State)
    requires Inv(c, s) && Quiet(c, s) && !s.phase.Done? && !s.timedOut && !s.expired
    ensures s.alive && s.todo != []
    ensures var x := s.todo[0].to;
            !Covered(c, s, x) && |s.At(x).data| >= Target(c.cap) && s.At(x).box == Some(Bounded(s.At(x).data, c.cap))
  {
    if s.todo == [] || !s.alive {
      IdleSteps(c, s);
    } else {
      var x := s.todo[0].to;
      assert LaneInv(c, s, x);
      assert !Enabled(c, s, Emit) && !Enabled(c, s, Fill(x)) && !Enabled(c, s, Receive(x, 1));
      assert |Written(s.todo, x)| > 0;
    }
  }

  /** Once the child has nothing to write or is gone, someone can always proceed. */
  lemma {:induction false} IdleSteps(c: Config, s: State)
    requires Inv(c, s) && !s.phase.Done? && (s.todo == [] || !s.alive)
    ensures !Quiet(c, s)
  {
    var x := if s.phase.JoiningErr? then Err else Out;
    assert LaneInv(c, s, x);
    if s.alive {
      assert Enabled(c, s, Exit) && !Impatient(Exit);
    } else if s.phase.Waiting? {
      assert Enabled(c, s, Reaped) && !Impatient(Reaped);
    } else if s.At(x).box.Some? {
      assert Enabled(c, s, Joined(false)) && !Impatient(Joined(false));
    } else if |s.At(x).data| < Target(c.cap) && s.At(x).pipe != [] {
      assert Enabled(c, s, Receive(x, 1)) && !Impatient(Receive(x, 1));
    } else {
      assert Enabled(c, s, Fill(x)) && !Impatient(Fill(x));
    }
  }

  // ----- what is captured

  lemma {:induction false} FullDrain(c: Config, s: State, x: Stream)
    requires LaneInv(c, s, x) && s.At(x).box.Some? && Written(s.todo, x) == []
    ensures s.At(x).box == Some(Bounded(Written(c.program, x), c.cap))
  {
    var lane := s.At(x);
    DrainedPrefix(lane.data, lane.pipe, [], Written(c.program, x), c.cap);
    assert Written(c.program, x)[..|Written(c.program, x)|] == Written(c.program, x);
  }

  lemma {:induction false} DrainedPrefix(data: seq<byte>, pipe: seq<byte>, rest: seq<byte>, all: seq<byte>, cap: int)
    requires data + pipe + rest == all
    requires |data| >= Target(cap) || pipe == []
    ensures Bounded(data, cap) == Bounded(all[..|all| - |rest|], cap)
    ensures FirstBytes(data, cap) <= all
  {
    assert all[..|all| - |rest|] == data + pipe;
  }

  /**
   When wait() did not time out, each box handed over is either exact or missing, and none is
   missing unless a join deadline passed.
   */
  lemma {:induction false} CompleteCapture(c: Config, acts: seq<Action>)
    requires Legal(c, acts) && After(c, acts).phase.Done? && !After(c, acts).timedOut
    ensures var s := After(c, acts);
            && s.phase.outBox in {None, Some(Bounded(Written(c.program, Out), c.cap))}
            && s.phase.errBox in {None, Some(Bounded(Written(c.program, Err), c.cap))}
            && (!s.expired ==> s.phase.outBox.Some? && s.phase.errBox.Some?)
  {
    ReachableInv(c, acts);
    var s := After(c, acts);
    if s.out.box.Some? { FullDrain(c, s, Out); }
    if s.err.box.Some? { FullDrain(c, s, Err); }
  }

  lemma {:induction false} LaneCapture(c: Config, s: State, x: Stream)
    requires LaneInv(c, s, x) && s.At(x).box.Some?
    ensures |Written(s.todo, x)| <= |Written(c.program, x)|
    ensures var all := Written(c.program, x);
            s.At(x).box == Some(Bounded(all[..|all| - |Written(s.todo, x)|], c.cap))
    ensures s.At(x).box.value.data <= Written(c.program, x)
  {
    DrainedPrefix(s.At(x).data, s.At(x).pipe, Written(s.todo, x), Written(c.program, x), c.cap);
  }

  /**
   Under any schedule, deadlines included, a filled box holds the bounded form of what the child
   has written to that stream, which is a prefix of what it would have written.
   */
  lemma {:induction false} AnyCapture(c: Config, acts: seq<Action>, x: Stream)
    requires Legal(c, acts) && After(c, acts).At(x).box.Some?
    ensures |Written(After(c, acts).todo, x)| <= |Written(c.program, x)|
    ensures var all := Written(c.program, x);
            After(c, acts).At(x).box == Some(Bounded(all[..|all| - |Written(After(c, acts).todo, x)|], c.cap))
    ensures After(c, acts).At(x).box.value.data <= Written(c.program, x)
  {
    ReachableInv(c, acts);
    LaneCapture(c, After(c, acts), x);
  }

  // ----- the result of a run

  /** The bytes the child had written to a stream when the capture ended. */
  function Sent(c: Config, s: State, x: Stream): seq<byte> {
    var all := Written(c.program, x);
    all[..Max(0, |all| - |Written(s.todo, x)|)]
  }

  function RunResult(c: Config, s: State, returnCode: int): SshResult
    requires s.phase.Done?
  {
    ResultOf(c.cap, s.timedOut, s.phase.outBox, s.phase.errBox, returnCode)
  }

  lemma {:induction false} InLast(before: seq<Action>, last: Action, a: Action)
    ensures a in before + [last] <==> a in before || a == last
  {}

  lemma {:induction false} StepFills(c: Config, s: State, a: Action, x: Stream)
    requires Enabled(c, s, a)
    ensures Apply(c, s, a).At(x).box.Some? <==> s.At(x).box.Some? || a == Fill(x)
  {}

  /** A box is there exactly when its drain thread has ended. */
  lemma {:induction false} FilledIff(c: Config, acts: seq<Action>, x: Stream)
    requires Legal(c, acts)
    ensures After(c, acts).At(x).box.Some? <==> Fill(x) in acts
  {
    if acts != [] {
      var before, last := acts[..|acts| - 1], acts[|acts| - 1];
      FilledIff(c, before, x);
      StepFills(c, After(c, before), last, x);
      InLast(before, last, Fill(x));
      assert acts == before + [last];
    }
  }

  /** The box handed over for a stream, and what it means. */
  lemma {:induction false} HandedOver(c: Config, acts: seq<Action>, x: Stream)
    requires Legal(c, acts) && After(c, acts).phase.Done?
    ensures var s := After(c, acts);
            var box := if x == Out then s.phase.outBox else s.phase.errBox;
            && box == (if Fill(x) in acts then Some(Bounded(Sent(c, s, x), c.cap)) else None)
            && (!s.timedOut ==> Sent(c, s, x) == Written(c.program, x))
  {
    var s := After(c, acts);
    ReachableInv(c, acts);
    FilledIff(c, acts, x);
    assert LaneInv(c, s, x);
    if s.At(x).box.Some? { LaneCapture(c, s, x); }
  }

  /**
   What a finished run reports of stdout is exact, text and flag, if and only if the drain thread
   ended in time or there was nothing to report. Otherwise the output is missing altogether under a
   clear flag, and the exit code is the child's own unless wait() timed out.
   */
  lemma {:induction false} StdoutExactIff(c: Config, acts: seq<Action>, returnCode: int)
    requires Legal(c, acts) && After(c, acts).phase.Done?
    ensures var s := After(c, acts);
            var r := RunResult(c, s, returnCode);
            && (Box(r.stdout, r.truncated) == Bounded(Sent(c, s, Out), c.cap) <==>
                Fill(Out) in acts || (Sent(c, s, Out) == [] && 0 <= c.cap))
            && (Fill(Out) !in acts ==> r.stdout == [] && !r.truncated)
            && (!s.timedOut ==> Sent(c, s, Out) == Written(c.program, Out) && r.exitCode == returnCode)
  {
    HandedOver(c, acts, Out);
    EmptyIsExactIff(Sent(c, After(c, acts), Out), c.cap);
  }

  lemma {:induction false} EmptyIsExactIff(sent: seq<byte>, cap: int)
    ensures Box([], false) == Bounded(sent, cap) <==> sent == [] && 0 <= cap
  {}

  /** The same for stderr, when wait() did not time out; after a timeout the marker follows what is there. */
  lemma {:induction false} StderrExactIff(c: Config, acts: seq<Action>, returnCode: int)
    requires Legal(c, acts) && After(c, acts).phase.Done?
    ensures var s := After(c, acts);
            var r := RunResult(c, s, returnCode);
            var kept := if Fill(Err) in acts then Sent(c, s, Err) else [];
            && (!s.timedOut ==>
                  && Sent(c, s, Err) == Written(c.program, Err)
                  && (Box(r.stderr, r.stderrTruncated) == Bounded(Sent(c, s, Err), c.cap) <==>
                      Fill(Err) in acts || (Sent(c, s, Err) == [] && 0 <= c.cap))
                  && (Fill(Err) !in acts ==> r.stderr == [] && !r.stderrTruncated))
            && (s.timedOut ==>
                  && r.exitCode == TIMEOUT_EXIT_CODE
                  && (0 <= c.cap ==> Box(r.stderr, r.stderrTruncated) == Bounded(kept + TIMEOUT_MARKER, c.cap)))
  {
    var s := After(c, acts);
    HandedOver(c, acts, Err);
    EmptyIsExactIff(Sent(c, s, Err), c.cap);
    if s.timedOut && 0 <= c.cap {
      TimedOutStderr(c.cap, s.phase.outBox, s.phase.errBox, if Fill(Err) in acts then Sent(c, s, Err) else [],
                     returnCode);
    }
  }

  /** A run without expired deadlines reports both streams exactly. */
  lemma {:induction false} PatientResult(c: Config, acts: seq<Action>, returnCode: int)
    requires Legal(c, acts) && Patient(acts) && After(c, acts).phase.Done?
    ensures Fill(Out) in acts && Fill(Err) in acts && !After(c, acts).timedOut
    ensures var out, err := Bounded(Written(c.program, Out), c.cap), Bounded(Written(c.program, Err), c.cap);
            RunResult(c, After(c, acts), returnCode) == SshResult(out.data, err.data, returnCode, out.over, err.over)
  {
    ReachableInv(c, acts);
    PatientRunsDoNotExpire(c, acts);
    FilledIff(c, acts, Out);
    FilledIff(c, acts, Err);
    StdoutExactIff(c, acts, returnCode);
    StderrExactIff(c, acts, returnCode);
  }

  /**
   A stream longer than its drain can take, as far as it may read ahead, and its pipe can hold always
   ends in the timeout: every finished run has exit code 124, whatever the child would have returned.
   */
  lemma {:induction false} OversizeTimesOut(c: Config, acts: seq<Action>, returnCode: int)
    requires Legal(c, acts) && After(c, acts).phase.Done? && !FitsWithin(c, c.ahead)
    ensures After(c, acts).timedOut
    ensures RunResult(c, After(c, acts), returnCode).exitCode == TIMEOUT_EXIT_CODE
  {
    ReachableInv(c, acts);
    var x := if |Written(c.program, Out)| > Target(c.cap) + c.ahead + c.room then Out else Err;
    assert LaneInv(c, After(c, acts), x);
  }

  /**
   run_ssh at the end of any legal run. Its stdout is always a prefix of the child's; it is exact, with
   its flag, iff the drain thread ended in time or nothing had been sent; a run without expired
   deadlines is exact altogether, and a stream beyond all room always comes back with exit code 124.
   */
  method RunSsh(c: Config, ghost acts: seq<Action>, s: State, returnCode: int) returns (r: SshResult)
    requires Legal(c, acts) && s == After(c, acts) && s.phase.Done?
    ensures r == RunResult(c, s, returnCode)
    ensures r.stdout <= Written(c.program, Out)
    ensures Box(r.stdout, r.truncated) == Bounded(Sent(c, s, Out), c.cap) <==>
            Fill(Out) in acts || (Sent(c, s, Out) == [] && 0 <= c.cap)
    ensures !s.timedOut ==>
              && Sent(c, s, Out) == Written(c.program, Out) && Sent(c, s, Err) == Written(c.program, Err)
              && (Box(r.stderr, r.stderrTruncated) == Bounded(Sent(c, s, Err), c.cap) <==>
                  Fill(Err) in acts || (Sent(c, s, Err) == [] && 0 <= c.cap))
    ensures s.timedOut && Fill(Err) in acts && 0 <= c.cap ==>
              Box(r.stderr, r.stderrTruncated) == Bounded(Sent(c, s, Err) + TIMEOUT_MARKER, c.cap)
    ensures Patient(acts) ==>
              r == SshResult(FirstBytes(Written(c.program, Out), c.cap), FirstBytes(Written(c.program, Err), c.cap),
                             returnCode, |Written(c.program, Out)| > c.cap, |Written(c.program, Err)| > c.cap)
    ensures !FitsWithin(c, c.ahead) ==> s.timedOut
    ensures r.exitCode == if s.timedOut then 124 else returnCode
  {
    r := Finish(c.cap, s.timedOut, s.phase.outBox, s.phase.errBox, returnCode);
    StdoutExactIff(c, acts, returnCode);
    StderrExactIff(c, acts, returnCode);
    if Patient(acts) { PatientResult(c, acts, returnCode); }
    if !FitsWithin(c, c.ahead) { OversizeTimesOut(c, acts, returnCode); }
  }

  // ----- output lost without a timeout

  /** The child is still running and neither drain thread has ended. */
  ghost predicate Undrained(s: State) {
    s.alive && s.phase.Waiting? && s.out.box.None? && s.err.box.None? && !s.timedOut
  }

  lemma {:induction false} Extend(c: Config, acts: seq<Action>, a: Action)
    requires Legal(c, acts) && Enabled(c, After(c, acts), a)
    ensures Legal(c, acts + [a]) && After(c, acts + [a]) == Apply(c, After(c, acts), a)
  {
    assert (acts + [a])[..|acts|] == acts;
  }

  /** Where the streams fit, the child can write everything before either drain thread ends. */
  lemma {:induction false} WriteAll(c: Config, acts: seq<Action>) returns (run: seq<Action>)
    requires Legal(c, acts) && Undrained(After(c, acts)) && Fits(c)
    ensures Legal(c, run) && Undrained(After(c, run)) && After(c, run).todo == []
    decreases Rank(After(c, acts))
  {
    var s := After(c, acts);
    if s.todo == [] {
      return acts;
    }
    var x := s.todo[0].to;
    ReachableInv(c, acts);
    assert LaneInv(c, s, x) && |Written(s.todo, x)| > 0;
    var a := if |s.At(x).pipe| < c.room then Emit else Receive(x, 1);
    StepLowersRank(c, s, a);
    Extend(c, acts, a);
    run := WriteAll(c, acts + [a]);
  }

  /**
   Every capture whose streams fit can lose all of its output without a timeout: the child writes
   everything and exits, both join deadlines pass before the drain threads have ended, and the call
   reports the child's exit code, no output and clear flags.
   */
  lemma {:induction false} LateJoinLosesOutput(c: Config, returnCode: int) returns (acts: seq<Action>)
    requires Fits(c)
    ensures Legal(c, acts) && After(c, acts).phase.Done? && !After(c, acts).timedOut
    ensures RunResult(c, After(c, acts), returnCode) == SshResult([], [], returnCode, false, false)
  {
    var run := WriteAll(c, []);
    Extend(c, run, Exit);
    Extend(c, run + [Exit], Reaped);
    Extend(c, run + [Exit] + [Reaped], Joined(true));
    Extend(c, run + [Exit] + [Reaped] + [Joined(true)], Joined(true));
    acts := run + [Exit] + [Reaped] + [Joined(true)] + [Joined(true)];
  }

  // ----- deadlines

  /** Whatever has happened, the deadlines end the capture: every run can be completed. */
  lemma {:induction false} DeadlinesEnd(c: Config, acts: seq<Action>) returns (run: seq<Action>)
    requires Legal(c, acts)
    ensures acts <= run && Legal(c, run) && After(c, run).phase.Done?
    decreases PhaseRank(After(c, acts).phase)
  {
    var s := After(c, acts);
    if s.phase.Done? {
      return acts;
    }
    var a := if s.phase.Waiting? then TimedOut else Joined(true);
    Extend(c, acts, a);
    run := DeadlinesEnd(c, acts + [a]);
  }

  /** The marker as text, and the size of a single read. */
  lemma {:induction false} MarkerIs(i: nat)
    requires i < 10
    ensures |TIMEOUT_MARKER| == |"\n[timeout]"| == 10 && TIMEOUT_MARKER[i] == "\n[timeout]"[i] as int
    ensures CHUNK == 64 * 1024
  {}
}
