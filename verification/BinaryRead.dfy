/**
 Byte windows of remote files and binary archive members: the length bound
 (linux_info_mcp/validate.py), and the handlers that decode the captured base64 text
 (linux_info_mcp/tools/files.py and tools/archive.py), over the runs of the capture.
 */
module BinaryRead {
  import opened Wrappers
  import opened Base64
  import opened Capture

  // ----- the length bound

  /** max((max_bytes - 8) * 3 // 4, 1); the division rounds down, as Python's does. */
  function LengthCap(maxBytes: int): int { Max((maxBytes - 8) * 3 / 4, 1) }

  predicate Accepted(offset: int, length: int, maxBytes: int) { 0 <= offset && 0 < length <= LengthCap(maxBytes) }

  function ValidateOffsetLength(offset: int, length: int, maxBytes: int): (r: Result<(nat, nat)>)
    ensures r.Ok? <==> Accepted(offset, length, maxBytes)
    ensures r.Ok? <==> 0 <= offset && (length == 1 || (0 < length && 4 * length <= 3 * (maxBytes - 8)))
    ensures r.Ok? ==> r.value == (offset, length)
  {
    if offset < 0 then Raises(ValueError("offset must be a non-negative int"))
    else if length <= 0 then Raises(ValueError("length must be a positive int"))
    else if length > LengthCap(maxBytes) then Raises(ValueError("length exceeds binary read cap"))
    else Ok((offset, length))
  }

  /** The text of every accepted window fits in max_bytes, exactly when max_bytes is at least 4. */
  lemma {:induction false} WindowsFit(maxBytes: int)
    ensures (forall data: seq<byte> | |data| <= LengthCap(maxBytes) :: |Encode(data)| <= maxBytes) <==> 4 <= maxBytes
  {
    forall data: seq<byte> ensures |Encode(data)| == 4 * ((|data| + 2) / 3) { EncodedLength(data); }
    if maxBytes < 4 {
      var one: seq<byte> := [0];
      assert |one| <= LengthCap(maxBytes) && |Encode(one)| == 4;
    }
  }

  // ----- the decoded reply

  datatype Reply = Reply(data64: seq<byte>, bytesRead: nat, stderr: seq<byte>, exitCode: int, truncated: bool)

  /** The bytes of "\n[base64 decode failed]". */
  const DECODE_MARKER: seq<byte> :=
    [10, 91, 98, 97, 115, 101, 54, 52, 32, 100, 101, 99, 111, 100, 101, 32, 102, 97, 105, 108, 101, 100, 93]

  function ReplyOf(res: SshResult): Reply {
    match Decode(res.stdout)
    case Some(bytes) => Reply(Encode(bytes), |bytes|, res.stderr, res.exitCode, res.truncated)
    case None => Undecoded(res.stderr, res.exitCode, res.truncated)
  }

  /** No bytes, the marker, and an exit code that is not 0. */
  function Undecoded(stderr: seq<byte>, exitCode: int, over: bool): Reply {
    Reply([], 0, stderr + DECODE_MARKER, if exitCode == 0 then 1 else exitCode, over)
  }

  /**
   Decodes a captured run. Text that does not decode gives no bytes, a marker on stderr and a
   failing exit code, whatever the remote status was.
   */
  method DecodeReply(res: SshResult) returns (reply: Reply)
    ensures reply == ReplyOf(res)
    ensures reply.truncated == res.truncated
    ensures match Decode(res.stdout)
            case Some(bytes) =>
              && reply.data64 == Encode(bytes) && reply.bytesRead == |bytes|
              && reply.stderr == res.stderr && reply.exitCode == res.exitCode
            case None =>
              && reply.data64 == [] && reply.bytesRead == 0
              && reply.stderr == res.stderr + DECODE_MARKER
              && reply.exitCode == if res.exitCode == 0 then 1 else res.exitCode
  {
    var stderr := res.stderr;
    var decodeFailed := false;
    var decoded: seq<byte> := [];
    SqueezeDecodes(res.stdout, 0, 0, 0);
    match Decode(Squeeze(res.stdout)) {
      case Some(bytes) => decoded := bytes;
      case None =>
        decodeFailed := true;
        stderr := stderr + DECODE_MARKER;
    }
    reply := Reply(Encode(decoded), |decoded|, stderr,
                   if decodeFailed && res.exitCode == 0 then 1 else res.exitCode, res.truncated);
  }

  /** The reply made of the captured text of `bytes`: all of it, the whole groups of a cut text, or a failure. */
  function ReplyFor(bytes: seq<byte>, cap: int, stderr: seq<byte>, exitCode: int): Reply {
    if |Encode(bytes)| <= cap then Reply(Encode(bytes), |bytes|, stderr, exitCode, false)
    else if cap % 4 == 0 || cap < 0 then
      var kept := FirstBytes(bytes, 3 * (Max(0, cap) / 4));
      Reply(Encode(kept), |kept|, stderr, exitCode, true)
    else Undecoded(stderr, exitCode, true)
  }

  /** The reply made of the first `n` characters of the text of `bytes`: whole groups, or a failure. */
  function TextReply(bytes: seq<byte>, n: nat, over: bool, stderr: seq<byte>, exitCode: int): Reply {
    if n % 4 == 0 then
      var kept := FirstBytes(bytes, 3 * (n / 4));
      Reply(Encode(kept), |kept|, stderr, exitCode, over)
    else Undecoded(stderr, exitCode, over)
  }

  lemma {:induction false} DecodePrefix(bytes: seq<byte>, n: nat)
    requires n <= |Encode(bytes)|
    ensures Decode(Encode(bytes)[..n]) == if n % 4 == 0 then Some(FirstBytes(bytes, 3 * (n / 4))) else None
  {
    EncodedLength(bytes);
    if n < |Encode(bytes)| {
      DecodeCut(bytes, n);
    } else {
      DecodeEncode(bytes);
      assert Encode(bytes)[..n] == Encode(bytes);
      assert FirstBytes(bytes, 3 * (n / 4)) == bytes;
    }
  }

  /** The two forms agree on a text that was captured up to the cap. */
  lemma {:induction false} ReplyForIsTextReply(bytes: seq<byte>, cap: int, stderr: seq<byte>, exitCode: int)
    ensures ReplyFor(bytes, cap, stderr, exitCode)
         == TextReply(bytes, |FirstBytes(Encode(bytes), cap)|, |Encode(bytes)| > cap, stderr, exitCode)
  {
    EncodedLength(bytes);
    if |Encode(bytes)| <= cap {
      assert FirstBytes(bytes, 3 * (|Encode(bytes)| / 4)) == bytes;
    }
  }

  /** The reply of a run whose child writes the text of `bytes` and whose stdout was drained. */
  lemma {:induction false} DrainedReply(c: Config, acts: seq<Action>, returnCode: int, bytes: seq<byte>)
    requires Legal(c, acts) && After(c, acts).phase.Done? && Fill(Out) in acts
    requires Written(c.program, Out) == Encode(bytes)
    ensures var s := After(c, acts);
            var r := RunResult(c, s, returnCode);
            && ReplyOf(r)
               == TextReply(bytes, |FirstBytes(Sent(c, s, Out), c.cap)|, |Sent(c, s, Out)| > c.cap, r.stderr, r.exitCode)
            && (!s.timedOut || |Sent(c, s, Out)| > c.cap ==> ReplyOf(r) == ReplyFor(bytes, c.cap, r.stderr, r.exitCode))
  {
    var s := After(c, acts);
    var r := RunResult(c, s, returnCode);
    var sent := Sent(c, s, Out);
    StdoutExactIff(c, acts, returnCode);
    var n := |FirstBytes(sent, c.cap)|;
    assert FirstBytes(sent, c.cap) == Encode(bytes)[..n];
    DecodePrefix(bytes, n);
    if !s.timedOut || |sent| > c.cap {
      SameBound(sent, Encode(bytes), c.cap);
      ReplyForIsTextReply(bytes, c.cap, r.stderr, r.exitCode);
    }
  }

  /** The reply of a run whose stdout was not drained in time. */
  lemma {:induction false} UndrainedReply(c: Config, acts: seq<Action>, returnCode: int)
    requires Legal(c, acts) && After(c, acts).phase.Done? && Fill(Out) !in acts
    ensures var r := RunResult(c, After(c, acts), returnCode);
            ReplyOf(r) == Reply([], 0, r.stderr, r.exitCode, false)
  {
    StdoutExactIff(c, acts, returnCode);
  }

  /** Past the cap a prefix and the whole are captured alike. */
  lemma {:induction false} SameBound(sent: seq<byte>, all: seq<byte>, cap: int)
    requires sent <= all && (sent == all || |sent| > cap)
    ensures Bounded(sent, cap) == Bounded(all, cap)
  {}

  /** How many bytes a reply for a text over the cap holds. */
  lemma {:induction false} CutReply(bytes: seq<byte>, cap: nat)
    requires cap < |Encode(bytes)|
    ensures 3 * (cap / 4) <= |bytes| && |FirstBytes(bytes, 3 * (cap / 4))| == 3 * (cap / 4)
  {
    EncodedLength(bytes);
  }

  /** Decoding the bounded text of some bytes. */
  lemma {:induction false} DecodeBounded(bytes: seq<byte>, cap: int)
    ensures Decode(Bounded(Encode(bytes), cap).data)
         == if |Encode(bytes)| <= cap then Some(bytes)
            else if cap % 4 == 0 || cap < 0 then Some(FirstBytes(bytes, 3 * (Max(0, cap) / 4)))
            else None
  {
    if 0 <= cap < |Encode(bytes)| {
      DecodeCut(bytes, cap);
      CutReply(bytes, cap);
    } else {
      DecodeEncode(bytes);
      assert Encode(bytes)[..|Encode(bytes)|] == Encode(bytes);
    }
  }

  // ----- archive members

  /**
   The binary branch of handle_archive_read, over a run of the capture in which the child writes the
   member's base64 text. Once the drain thread ended in time, the reply is what the captured part of the
   text decodes to; it is the member's, whole or cut to its first 3 * cap / 4 bytes or, for a cap that is
   no multiple of 4, nothing, unless a timeout stopped the text short of the cap. A text beyond cap,
   read-ahead and pipe always times out.
   */
  method ReadMemberBinary(ghost member: seq<byte>, c: Config, ghost acts: seq<Action>, s: State, returnCode: int)
    returns (reply: Reply)
    requires Legal(c, acts) && s == After(c, acts) && s.phase.Done?
    requires Written(c.program, Out) == Encode(member)
    ensures var r := RunResult(c, s, returnCode);
            var sent := Sent(c, s, Out);
            && (Fill(Out) in acts ==>
                  reply == TextReply(member, |FirstBytes(sent, c.cap)|, |sent| > c.cap, r.stderr, r.exitCode))
            && (Fill(Out) in acts && (!s.timedOut || |sent| > c.cap) ==>
                  reply == ReplyFor(member, c.cap, r.stderr, r.exitCode))
            && (Fill(Out) !in acts ==> reply == Reply([], 0, r.stderr, r.exitCode, false))
    ensures Patient(acts) ==>
              reply == ReplyFor(member, c.cap, FirstBytes(Written(c.program, Err), c.cap), returnCode)
    ensures |Encode(member)| > Target(c.cap) + c.ahead + c.room ==> s.timedOut
    ensures s.timedOut && Fill(Out) in acts && Fill(Err) in acts && 0 <= c.cap < |Sent(c, s, Out)| ==>
              reply == ReplyFor(member, c.cap, FirstBytes(Sent(c, s, Err) + TIMEOUT_MARKER, c.cap), TIMEOUT_EXIT_CODE)
    ensures s.timedOut ==> reply.exitCode == TIMEOUT_EXIT_CODE
  {
    var res := RunSsh(c, acts, s, returnCode);
    if Patient(acts) { PatientResult(c, acts, returnCode); }
    if Fill(Out) in acts { DrainedReply(c, acts, returnCode, member); } else { UndrainedReply(c, acts, returnCode); }
    reply := DecodeReply(res);
  }

  /** A timeout that came when nothing but a deadline could act any more, at position `n` of a run. */
  ghost predicate TimedOutWhenBlocked(c: Config, acts: seq<Action>, n: nat) {
    && n < |acts| && acts[n] == TimedOut
    && Legal(c, acts[..n]) && Patient(acts[..n]) && Quiet(c, After(c, acts[..n]))
  }

  lemma {:induction false} LegalPrefix(c: Config, acts: seq<Action>, n: nat)
    requires Legal(c, acts) && n <= |acts|
    ensures Legal(c, acts[..n])
    decreases |acts|
  {
    if n == |acts| {
      assert acts[..n] == acts;
    } else {
      LegalPrefix(c, acts[..|acts| - 1], n);
      assert acts[..|acts| - 1][..n] == acts[..n];
    }
  }

  /** What a lane's drain has taken only grows, a box stays, and a timeout is never taken back. */
  lemma {:induction false} LaneGrows(c: Config, acts: seq<Action>, n: nat, x: Stream)
    requires Legal(c, acts) && n <= |acts|
    ensures Legal(c, acts[..n])
    ensures After(c, acts[..n]).At(x).data <= After(c, acts).At(x).data
    ensures After(c, acts[..n]).timedOut ==> After(c, acts).timedOut
    decreases |acts|
  {
    LegalPrefix(c, acts, n);
    if n == |acts| {
      assert acts[..n] == acts;
    } else {
      var before := acts[..|acts| - 1];
      LaneGrows(c, before, n, x);
      assert before[..n] == acts[..n];
      StepGrows(c, After(c, before), acts[|acts| - 1], x);
    }
  }

  lemma {:induction false} StepGrows(c: Config, s: State, a: Action, x: Stream)
    requires Enabled(c, s, a)
    ensures s.At(x).data <= Apply(c, s, a).At(x).data && (s.timedOut ==> Apply(c, s, a).timedOut)
  {}

  /**
   A text that exceeds all room, in a run that timed out when it was blocked and whose stderr fits: the
   drain thread had ended with more than the cap.
   */
  lemma {:induction false} OversizeDrained(c: Config, acts: seq<Action>, n: nat)
    requires Legal(c, acts) && TimedOutWhenBlocked(c, acts, n)
    requires |Written(c.program, Out)| > Target(c.cap) + c.ahead + c.room
    requires |Written(c.program, Err)| <= Target(c.cap) + c.room
    ensures Fill(Out) in acts && |Sent(c, After(c, acts), Out)| > c.cap && After(c, acts).timedOut
  {
    var before := acts[..n];
    var s := After(c, before);
    ReachableInv(c, before);
    PatientRunsDoNotExpire(c, before);
    PatientRunOutcome(c, before);
    BlockedChild(c, s);
    assert LaneInv(c, s, Err);
    assert s.todo[0].to == Out;
    FilledIff(c, before, Out);
    assert Fill(Out) in acts;
    assert acts[..n + 1][..n] == before;
    LegalPrefix(c, acts, n + 1);
    LaneGrows(c, acts, n, Out);
    LaneGrows(c, acts, n + 1, Out);
    ReachableInv(c, acts);
    assert LaneInv(c, After(c, acts), Out);
  }

  /**
   Such a member is answered with what the cap leaves of it under exit code 124: its first 3 * cap / 4
   bytes for a cap that is a multiple of 4, and otherwise nothing. Where the drain of stderr ended in
   time as well, the timeout marker follows what it had taken.
   */
  lemma {:induction false} OversizeMember(c: Config, acts: seq<Action>, n: nat, member: seq<byte>, returnCode: int)
    requires Legal(c, acts) && After(c, acts).phase.Done? && TimedOutWhenBlocked(c, acts, n)
    requires Written(c.program, Out) == Encode(member) && |Encode(member)| > Target(c.cap) + c.ahead + c.room
    requires |Written(c.program, Err)| <= Target(c.cap) + c.room
    ensures var s := After(c, acts);
            var r := RunResult(c, s, returnCode);
            && ReplyOf(r) == ReplyFor(member, c.cap, r.stderr, TIMEOUT_EXIT_CODE)
            && ReplyOf(r).truncated
            && (0 <= c.cap && Fill(Err) in acts ==>
                  r.stderr == FirstBytes(Sent(c, s, Err) + TIMEOUT_MARKER, c.cap))
  {
    OversizeDrained(c, acts, n);
    DrainedReply(c, acts, returnCode, member);
    StderrExactIff(c, acts, returnCode);
  }

  // ----- read_binary

  /** What dd copies with ibs=1: `count` bytes from `skip` on, as far as the stream goes. */
  function Slice(stream: seq<byte>, skip: nat, count: nat): seq<byte> {
    stream[Min(skip, |stream|)..Min(skip + count, |stream|)]
  }

  /**
   handle_read_binary, over a run of the capture in which the child writes the base64 text of the
   window. With max_bytes of at least 4 an accepted request is answered with exactly its window and is
   not truncated. Below that every non-empty window loses all its bytes. After a timeout the reply is the
   whole groups of the part of the text that was sent or, if that does not end between groups, nothing;
   a drain that did not end in time leaves nothing under a clear flag.
   */
  method HandleReadBinary(ghost stream: seq<byte>, offset: int, length: int,
                          c: Config, ghost acts: seq<Action>, s: State, returnCode: int) returns (r: Result<Reply>)
    requires Legal(c, acts) && s == After(c, acts) && s.phase.Done?
    requires Accepted(offset, length, c.cap) ==> Written(c.program, Out) == Encode(Slice(stream, offset, length))
    ensures r.Ok? <==> Accepted(offset, length, c.cap)
    ensures r.Ok? <==> 0 <= offset && (length == 1 || (0 < length && 4 * length <= 3 * (c.cap - 8)))
    ensures r.Ok? ==>
              var window, res, sent := Slice(stream, offset, length), RunResult(c, s, returnCode), Sent(c, s, Out);
              r.value == if Fill(Out) in acts
                         then TextReply(window, |FirstBytes(sent, c.cap)|, |sent| > c.cap, res.stderr, res.exitCode)
                         else Reply([], 0, res.stderr, res.exitCode, false)
    ensures r.Ok? && s.timedOut ==> r.value.exitCode == TIMEOUT_EXIT_CODE
    ensures r.Ok? && 4 <= c.cap && Fill(Out) in acts && !s.timedOut ==>
              var window := Slice(stream, offset, length);
              r.value == Reply(Encode(window), |window|, RunResult(c, s, returnCode).stderr, returnCode, false)
    ensures r.Ok? && c.cap < 4 && offset < |stream| && Fill(Out) in acts && !s.timedOut ==>
              r.value.truncated && r.value.bytesRead == 0 && (0 < c.cap ==> r.value.exitCode != 0)
  {
    var checked := ValidateOffsetLength(offset, length, c.cap);
    if checked.Raises? {
      return Raises(checked.error);
    }
    var res := RunSsh(c, acts, s, returnCode);
    ghost var window := Slice(stream, offset, length);
    if Fill(Out) in acts { DrainedReply(c, acts, returnCode, window); } else { UndrainedReply(c, acts, returnCode); }
    WindowReply(window, c.cap);
    var reply := DecodeReply(res);
    r := Ok(reply);
  }

  /** The captured text of a window within the length cap: complete from max_bytes 4 on, else no bytes. */
  lemma {:induction false} WindowReply(window: seq<byte>, maxBytes: int)
    requires |window| <= LengthCap(maxBytes)
    ensures 4 <= maxBytes ==>
              Bounded(Encode(window), maxBytes) == Box(Encode(window), false) && Decode(Encode(window)) == Some(window)
    ensures maxBytes < 4 && window != [] ==>
              var box := Bounded(Encode(window), maxBytes);
              box.over && Decode(box.data) == if maxBytes <= 0 then Some([]) else None
  {
    EncodedLength(window);
    DecodeBounded(window, maxBytes);
    if 4 <= maxBytes {
      assert 4 * ((|window| + 2) / 3) <= maxBytes;
      assert Encode(window)[..|Encode(window)|] == Encode(window);
    }
  }

  /** The windows [0, n), [n, 2n), ... one after the other. */
  function Windows(stream: seq<byte>, length: nat, k: nat): seq<byte> {
    if k == 0 then [] else Windows(stream, length, k - 1) + Slice(stream, (k - 1) * length, length)
  }

  /** Consecutive windows put together are the stream, as far as they reach. */
  lemma {:induction false} WindowsJoin(stream: seq<byte>, length: nat, k: nat)
    ensures 0 <= k * length
    ensures Windows(stream, length, k) == stream[..Min(k * length, |stream|)]
  {
    if k > 0 {
      WindowsJoin(stream, length, k - 1);
      assert k * length == (k - 1) * length + length;
    }
  }

  /** The marker as text. */
  lemma {:induction false} DecodeMarkerIs(i: nat)
    requires i < 23
    ensures |DECODE_MARKER| == |"\n[base64 decode failed]"| == 23
    ensures DECODE_MARKER[i] == "\n[base64 decode failed]"[i] as int
  {}
}
