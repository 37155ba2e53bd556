/**
 Binary reads from end to end: the printed command (linux_info_mcp/ssh.py and tools/archive.py), what
 the remote shell makes of it where dd slices and base64 encodes, the capture, and the decoded reply.
 */
module WindowRead {
  import opened Wrappers
  import opened Base64
  import opened BinaryRead
  import Builders
  import Capture
  import Plans
  import Shell
  import ToolCommands

  /** The shell's text of some bytes. */
  function AsText(bytes: seq<byte>): (s: string)
    ensures |s| == |bytes|
  {
    seq(|bytes|, i requires 0 <= i < |bytes| => bytes[i] as char)
  }

  lemma {:induction false} AsTextIsInjective(a: seq<byte>, b: seq<byte>)
    requires AsText(a) == AsText(b)
    ensures a == b
  {
    forall i | 0 <= i < |a| ensures a[i] == b[i] {
      assert AsText(a)[i] == AsText(b)[i];
    }
  }

  const LOCALE := [Shell.Binding("LC_ALL", "C")]

  /** On this host base64 -w 0 encodes its input and succeeds. */
  ghost predicate EncodesBase64(world: Shell.World) {
    forall data: seq<byte> ::
      var o := world(Shell.Invocation([], ["base64", "-w", "0"], AsText(data)));
      o.out == AsText(Encode(data)) && o.status == 0
  }

  /** dd of the file copies slices of `stream`. */
  ghost predicate DdReads(world: Shell.World, path: string, stream: seq<byte>) {
    forall offset: nat, length: nat {:trigger ToolCommands.WindowWords(offset, length)} ::
      world(Shell.Invocation(LOCALE, ["dd", "if=" + path] + ToolCommands.WindowWords(offset, length), "")).out
      == AsText(Slice(stream, offset, length))
  }

  /** dd of its input copies slices of it. */
  ghost predicate DdFilters(world: Shell.World) {
    forall data: seq<byte>, offset: nat, length: nat
      {:trigger AsText(data), ToolCommands.WindowWords(offset, length)} ::
      world(Shell.Invocation([], ["dd"] + ToolCommands.WindowWords(offset, length), AsText(data))).out
      == AsText(Slice(data, offset, length))
  }

  /** The host's file holds `stream`, under a codec once decompressed, and its dd works. */
  ghost predicate Stores(world: Shell.World, path: string, codec: Option<Builders.Codec>, stream: seq<byte>) {
    match codec
    case None => DdReads(world, path, stream)
    case Some(c) =>
      && DdFilters(world)
      && world(Shell.Invocation(LOCALE, [Builders.Decompressor(c), "-dc", "--", path], "")).out == AsText(stream)
  }

  /** The printed line writes the base64 text of the window, with status 0. */
  lemma {:induction false} LineWritesWindow(world: Shell.World, path: string, codec: Option<Builders.Codec>,
      stream: seq<byte>, offset: nat, length: nat)
    requires EncodesBase64(world) && Stores(world, path, codec, stream)
    ensures Shell.Run(world, ToolCommands.BuildBinary(path, offset, length, codec))
         == Some(Shell.Effect(AsText(Encode(Slice(stream, offset, length))), 0))
  {
    ToolCommands.BinaryMeaning(world, path, offset, length, codec);
    var words := ToolCommands.WindowWords(offset, length);
    var text := AsText(Slice(stream, offset, length));
    match codec {
      case None =>
        assert world(Shell.Invocation(LOCALE, ["dd", "if=" + path] + words, "")).out == text;
      case Some(c) =>
        assert world(Shell.Invocation([], ["dd"] + words, AsText(stream))).out == text;
    }
  }

  /**
   read_binary as a whole: validation, command, remote shell, capture and decoding. An accepted request
   on a host that stores `stream`, in a run of the capture whose child writes what the line writes, is
   answered with exactly the window, if max_bytes is at least 4 and stdout was drained without a timeout;
   in any other run with what the captured part of its text decodes to.
   */
  method ReadBinary(ghost world: Shell.World, path: string, codec: Option<Builders.Codec>, ghost stream: seq<byte>,
                    offset: int, length: int, c: Capture.Config, ghost acts: seq<Capture.Action>, s: Capture.State)
    returns (r: Result<Reply>)
    requires EncodesBase64(world) && Stores(world, path, codec, stream)
    requires Capture.Legal(c, acts) && s == Capture.After(c, acts) && s.phase.Done?
    requires Accepted(offset, length, c.cap) ==>
               var ran := Shell.Run(world, ToolCommands.BuildBinary(path, offset, length, codec));
               ran.Some? ==> AsText(Capture.Written(c.program, Capture.Out)) == ran.value.out
    ensures r.Ok? <==> Accepted(offset, length, c.cap)
    ensures r.Ok? <==> 0 <= offset && (length == 1 || (0 < length && 4 * length <= 3 * (c.cap - 8)))
    ensures r.Ok? ==>
              var res, sent := Capture.RunResult(c, s, 0), Capture.Sent(c, s, Capture.Out);
              r.value == if Capture.Fill(Capture.Out) in acts
                         then TextReply(Slice(stream, offset, length), |Capture.FirstBytes(sent, c.cap)|,
                                        |sent| > c.cap, res.stderr, res.exitCode)
                         else Reply([], 0, res.stderr, res.exitCode, false)
    ensures r.Ok? && 4 <= c.cap && Capture.Fill(Capture.Out) in acts && !s.timedOut ==>
              var window := Slice(stream, offset, length);
              r.value == Reply(Encode(window), |window|, Capture.RunResult(c, s, 0).stderr, 0, false)
  {
    if Accepted(offset, length, c.cap) {
      LineWritesWindow(world, path, codec, stream, offset, length);
      AsTextIsInjective(Capture.Written(c.program, Capture.Out), Encode(Slice(stream, offset, length)));
    }
    r := HandleReadBinary(stream, offset, length, c, acts, s, 0);
  }

  /** A binary archive member: the printed line writes its base64 text, with status 0. */
  lemma {:induction false} LineWritesMember(world: Shell.World, fmt: ToolCommands.ArchiveFormat, path: string,
      name: string, member: seq<byte>)
    requires EncodesBase64(world)
    requires world(Shell.Invocation(LOCALE, ToolCommands.MemberWords(fmt, path, name), "")).out == AsText(member)
    ensures Shell.Run(world, Plans.Line(ToolCommands.MemberPlan(fmt, path, name, None, [], true)))
         == Some(Shell.Effect(AsText(Encode(member)), 0))
  {
    ToolCommands.ArchiveBinaryMeaning(world, fmt, path, name, None, []);
  }

  /**
   archive_read in its binary form as a whole: what the captured part of the text decodes to; in a run
   without expired deadlines the member if its text fits under the cap, else what the cut text still holds.
   */
  method ReadMember(ghost world: Shell.World, fmt: ToolCommands.ArchiveFormat, path: string, name: string,
                    ghost member: seq<byte>, c: Capture.Config, ghost acts: seq<Capture.Action>, s: Capture.State)
    returns (reply: Reply)
    requires EncodesBase64(world)
    requires world(Shell.Invocation(LOCALE, ToolCommands.MemberWords(fmt, path, name), "")).out == AsText(member)
    requires Capture.Legal(c, acts) && s == Capture.After(c, acts) && s.phase.Done?
    requires var ran := Shell.Run(world, Plans.Line(ToolCommands.MemberPlan(fmt, path, name, None, [], true)));
             ran.Some? ==> AsText(Capture.Written(c.program, Capture.Out)) == ran.value.out
    ensures var res, sent := Capture.RunResult(c, s, 0), Capture.Sent(c, s, Capture.Out);
            reply == if Capture.Fill(Capture.Out) in acts
                     then TextReply(member, |Capture.FirstBytes(sent, c.cap)|, |sent| > c.cap, res.stderr, res.exitCode)
                     else Reply([], 0, res.stderr, res.exitCode, false)
    ensures Capture.Patient(acts) ==>
              reply == ReplyFor(member, c.cap, Capture.FirstBytes(Capture.Written(c.program, Capture.Err), c.cap), 0)
    ensures |Encode(member)| > Capture.Target(c.cap) + c.ahead + c.room ==>
              reply.exitCode == Capture.TIMEOUT_EXIT_CODE
  {
    LineWritesMember(world, fmt, path, name, member);
    AsTextIsInjective(Capture.Written(c.program, Capture.Out), Encode(member));
    reply := ReadMemberBinary(member, c, acts, s, 0);
  }
}
