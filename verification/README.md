# Verified model of linux_info_mcp

linux_info_mcp answers requests for read-only facts about Linux hosts: it validates the arguments
of a tool call, prints a shell command, runs it over SSH on one host or on many, captures the
output under a byte cap, and shapes the reply. This project models the parts of it that carry
state, concurrency, text printing or parsing, and proves what they promise.

`dafny verify dfyconfig.toml` checks everything. One module per file:

| module | models |
|---|---|
| Capture | draining two pipes under a cap, the waiting parent, timeouts and join deadlines, as a step system; the drain loop and the end of `run_ssh` as methods |
| FanOut | the bounded worker pool that fills result slots by index, and its refinement of a sequential map |
| CallContext | the logging context of concurrent calls and their workers on reused threads, the record filter |
| Hosts | host validation, host lists, limits from the environment, target resolution |
| Dispatch | error taxonomy, output modes, per-host slots, one whole tool call |
| Shell, Printing, Plans | a POSIX shell reader and runner, `shlex.quote`, and printed pipelines |
| Builders, FindCommand, ToolCommands, DockerCommands | the command builders and what the shell makes of their text |
| Base64, BinaryRead, WindowRead | base64, its non-strict decoder, byte windows and binary archive members, from the printed command to the decoded reply |
| StatFormat | the regular-expression scan of stat formats against the grammar it stands for |
| FreeParser, DfParser | the parsers of `free` (an aliased mutable record) and `df` |
| Sections, ProcFiles, NetDev, Warnings, Triage, TriageFacts | the triage report: section splitter, the parsers of numbers and interface counters, rule engine, all together, and which number becomes which fact |
| Text, Numbers, Wrappers | the Python string operations, integer conversions and values they share |

How the pieces of the outside world appear: a run of the capture protocol is any legal sequence of
steps, with the capacity of a pipe and the read-ahead of its buffered reader as parameters;
`Pipe.Read` returns any non-empty amount; a schedule of the worker pool is any legal
sequence of steps; the utilities of a remote host are any function from an invocation to an
outcome (`Shell.World`); tool handlers, output parsers, the JSON encoder and the triage probes'
parsers that cannot raise are any functions; the patterns that classify stderr are any predicates;
request ids and environment texts are parameters, and so are the range of Python's floats and the digit
limit of its `int()` and `str()` (`Numbers.IsCPython` gives the values of CPython). Runs are lists of
actions with `Enabled` and `Apply`; safety is proved by induction on the last action. Automatic
induction is switched off on every lemma, so each induction in the project is one that its body makes.
Tables that a function and its specification share (flags, letters, kinds, thresholds, markers) are each
pinned once by a lemma that writes their entries out, mostly under the name `...Is`, `...Are` or `...Iff`.

## Results that are not what the documentation says

- `parse_triage` is documented never to raise (linux_info_mcp/tools/triage.py:448). There are three ways
  in which it does. `_build_warnings` divides by `rx_packets + 1` and `tx_packets + 1`, and `int()` accepts
  a sign, so a row with -1 packets raises `ZeroDivisionError` (`Triage.ParseTriageCanRaise`). A quotient
  of integers that no float can hold raises `OverflowError` (`Triage.ParseTriageCanOverflow`). And
  `int()` and `str()` refuse numbers beyond a limit on their digits: `_first_int` and `_parse_conntrack`
  let that `ValueError` pass (`Triage.ParseTriageCanReachTheLimit`), and the sum of two counters that were
  read may be too long to print (`Warnings.LossesCanPassTheLimit`). `Triage.RaisesIff` gives the exact
  condition for every text, and `Warnings.FirstBadNicDecides` which exception it is.
- Because of that a machine that gets worse can lose all its warnings at once (`Warnings.WorseCanSilence`);
  `Warnings.WorseRaisesIff` says exactly when, for a machine of which the same quantities are known. As
  long as the rules end, no warning disappears (`Warnings.WorseNeverHidesWarnings`).
- README.md:63 gives the window bound as `(MAX_BYTES - 64) * 3 / 4`; the code subtracts 8
  (linux_info_mcp/validate.py:233). The code's bound is enough exactly when `max_bytes >= 4`
  (`BinaryRead.WindowsFit`); below that every non-empty window is lost.
- Errors of grep are documented to come through the `|| [ $? -eq 1 ]` suffix. They
  stay failures, but every status from 2 on becomes 1 (`Builders.FilterMeaning`), and a failure of
  the source command never shows at all (`Builders.SourceStatusIgnored`): an unreadable file reads
  like a file without a match.
- A drain thread that misses its two-second join leaves no output and a clear `truncated` flag, also
  when the child exited normally. This can happen to every capture whose streams fit
  (`Capture.LateJoinLosesOutput`), and what is reported of a stream is exact if and only if its drain
  thread ended in time or nothing was sent under a cap of at least 0 (`Capture.StdoutExactIff`, `Capture.StderrExactIff`).
- Output beyond the cap is documented as truncated. Beyond the cap, the read-ahead and the pipe's
  capacity together the child blocks, and the call always ends in the timeout, with exit code 124
  (`Capture.OversizeTimesOut`). A binary archive member of that size, in a run that timed out once it was
  blocked and whose stderr fits, comes back under 124 as its first 3 * cap / 4 bytes if the cap is a
  multiple of 4, and otherwise as nothing (`BinaryRead.OversizeMember`).
- A reply that ends "ok" but carries an `error` key of its own counts as failed in a multi-host call,
  though the single-host call reports "ok" (`Dispatch.SlotFailedIff`).

## Model

| member | source | states |
|---|---|---|
| Capture.ReadBounded | linux_info_mcp/ssh.py:142-156 | for any way the stream is split into reads: the first `cap` bytes, overflow iff the stream is longer than `cap`, and not one byte beyond `cap + 1` taken from the file object |
| Capture.TimedOutStderr | linux_info_mcp/ssh.py:209-215 | stderr of a timed-out run is the first `cap` bytes of raw text and marker although it is cut twice; a clear flag means the marker is complete |
| Capture.StepKeepsInv | linux_info_mcp/ssh.py:174-201 | every step of child, drains and parent keeps the invariant: bytes received, in the pipe and still to be written are the program's output in order, and a filled box is exact for what was received |
| Capture.ReachableInv | linux_info_mcp/ssh.py:174-201 | the invariant holds after every legal run |
| Capture.RunsAreFinite | linux_info_mcp/ssh.py:147-151 | every interleaving ends: at most 2 * bytes + 6 steps |
| Capture.NextStep | linux_info_mcp/ssh.py:188-199 | no deadlock: while both streams fit in `cap + 1` bytes plus the pipe, an unfinished capture has a step that is not a deadline |
| Capture.PatientRunOutcome | linux_info_mcp/ssh.py:142-199 | a run without deadlines that can go no further has finished iff what was read and one full pipe cover both streams; so always when they fit without read-ahead, for every read-ahead, and never when a stream exceeds even the most that can be read ahead |
| Capture.BlockedChild | linux_info_mcp/ssh.py:142-199 | where only a deadline can act, the child waits for room in a stream whose drain thread has ended with more than the cap |
| Capture.CompleteCapture | linux_info_mcp/ssh.py:193-201 | without a timeout each box handed over is exact or missing, and none is missing unless a join deadline passed |
| Capture.LateJoinLosesOutput | linux_info_mcp/ssh.py:198-201 | every capture whose streams fit has a run without a timeout that returns the child's exit code, no output and clear flags |
| Capture.AnyCapture | linux_info_mcp/ssh.py:180-201 | under any schedule a filled box is the bounded form of what was written, a prefix of the stream |
| Capture.RunSsh | linux_info_mcp/ssh.py:159-227 | the result of any legal run: stdout a prefix of the child's; stdout, and stderr without a timeout, exact in text and flag iff their drain threads ended in time or nothing was sent; the marker after a timeout; all exact without expired deadlines; a stream beyond all room always ends in the timeout; exit code 124 when timed out, else the child's |
| Capture.StdoutExactIff | linux_info_mcp/ssh.py:193-201 | stdout is exact, text and flag, iff the drain thread ended in time or nothing had been sent; otherwise it is empty under a clear flag |
| Capture.StderrExactIff | linux_info_mcp/ssh.py:193-216 | the same for stderr without a timeout; after one, what the drain thread left, then the marker, under the cap |
| Capture.PatientResult | linux_info_mcp/ssh.py:159-227 | without expired deadlines both streams are reported exactly under the child's own exit code |
| Capture.OversizeTimesOut | linux_info_mcp/ssh.py:193-212 | every finished run with a stream beyond cap, read-ahead and pipe has timed out and returns 124 |
| Capture.DeadlinesEnd | linux_info_mcp/ssh.py:192-199 | whatever has happened, the deadlines end the capture |
| FanOut.StepKeepsSchedule | linux_info_mcp/server.py:243-249 | each pool step keeps: jobs start in order and once, started ones are running or ended, at most `workers` run |
| FanOut.ReachableInv | linux_info_mcp/server.py:243-251 | the pool's invariants hold after every legal run |
| FanOut.PoolIsBounded | linux_info_mcp/server.py:241-249 | under every schedule at most `workers` jobs run at a time, each is started once and in host order, and a run has at most four steps a host |
| FanOut.PoolFills | linux_info_mcp/server.py:239-251 | the bound is attained: any number of jobs up to it can run at once |
| FanOut.WorkersAre | linux_info_mcp/server.py:241 | the number of workers, case by case |
| FanOut.NextStep | linux_info_mcp/server.py:243-250 | with at least one worker, an unfinished fan-out always has a next step |
| FanOut.FanOutRefinesMap | linux_info_mcp/server.py:239-251 | a run that can go no further has run each host exactly once and its slots equal the sequential map, whatever the completion order |
| FanOut.RunMultiHost | linux_info_mcp/server.py:242-251 | collecting futures in any order into slots by index gives the sequential map, with no slot left blank |
| CallContext.LogRecord.Filter | linux_info_mcp/log.py:32-41 | keeps every record, and adds pid, tool and request id exactly where the record lacks them |
| CallContext.ReachableInv | linux_info_mcp/server.py:243-249 | after every interleaving on reused threads no two jobs share a context object, a job inside a call holds that call's context, a task outside one holds what it started with, and a thread has entered the context of the job it runs |
| CallContext.ThreadsSeeTheirJob | linux_info_mcp/server.py:243-249 | on whatever thread a job runs, it sees its own call's context, or outside a call what it started with |
| CallContext.RecordsAreTagged | linux_info_mcp/log.py:32-41 | every record logged for a call, by its task or any worker, carries that call's tool and id |
| CallContext.RequestIdNamesTheCall | linux_info_mcp/log.py:18-21 | given fresh ids, two records carry the same request id iff they belong to the same call |
| CallContext.LeaveRestores | linux_info_mcp/server.py:358-359 | whatever ran meanwhile and on whatever thread, a task leaving its call sees the context it started with |
| CallContext.WorkerKeepsContext | linux_info_mcp/server.py:245-248 | a worker's context object keeps the call that spawned it through every continuation, also after that call has left |
| CallContext.ThreadCanBeReused | linux_info_mcp/server.py:243-249 | there is a run in which one thread serves a call and then its worker, both records tagged |
| Hosts.LimitsAreClamped | linux_info_mcp/validate.py:74-100 | both limits lie in [1, 25] for any environment text; a decimal number below that range gives the default, above it 25 |
| Hosts.LimitsAre | linux_info_mcp/validate.py:74-100 | the numbers: at most 25; 10 hosts and 4 workers where the environment is blank, unreadable or below 1 |
| Hosts.AllowListIs | linux_info_mcp/validate.py:66-70 | the allowlist is what stands between the commas, stripped, without blanks |
| Hosts.RefusalsAre | linux_info_mcp/validate.py:51-71 | which refusal a host gets, with its text |
| Hosts.ValidateHost | linux_info_mcp/validate.py:58-71 | accepts exactly non-empty hosts without NUL, line break, white space or leading dash that the allowlist, if any, holds |
| Hosts.ValidateHostList | linux_info_mcp/validate.py:103-122 | accepts exactly non-empty lists within the limit, counted before deduplication, whose every entry is valid; yields the deduplicated list, or the error of the first check that fails, of hosts in their order |
| Hosts.DedupeKeepsFirsts | linux_info_mcp/validate.py:115-122 | no duplicates, the same set of hosts, first occurrences in their original order |
| Hosts.SecondValidation | linux_info_mcp/validate.py:103-122 | the accepted list passes validation again and is left unchanged, and has at most 25 entries |
| Hosts.ResolveTargetHosts | linux_info_mcp/validate.py:125-135 | `host` and `hosts` exclude each other, one is needed, and the targets are the host or the deduplicated list |
| Hosts.TargetsStandAlone | linux_info_mcp/validate.py:125-135 | each target of an accepted multi-host call is accepted as a single host |
| Dispatch.KindAgainstFlag | linux_info_mcp/server.py:68-98 | kind "ok" iff the exit code is zero; a privilege-flagged reply has another kind iff an earlier rule of the taxonomy caught it |
| Dispatch.KindIff | linux_info_mcp/server.py:68-85 | each of the eight error kinds by its own exact condition on exit code and stderr |
| Dispatch.PrivilegeFlagIff | linux_info_mcp/server.py:94-97 | the privilege flag is set iff the exit code is not 0 and stderr has the signature |
| Dispatch.TimedOutIsTimeout | linux_info_mcp/server.py:72-73 | the reply made of a capture that timed out is of kind "timeout", in every mode |
| Dispatch.StatusIs | linux_info_mcp/server.py:105-130 | what parse_status says in every case |
| Dispatch.FailuresAre | linux_info_mcp/server.py:224-236 | slot and single answer of a handler that raises or returns no dictionary, and the outcome of one that does |
| Dispatch.MultiAnswerIs | linux_info_mcp/server.py:297-311 | the keys of a fan-out's answer, its slots, and its error text |
| Dispatch.ResultDict.AnnotatePrivilege | linux_info_mcp/server.py:88-98 | the new dictionary, for integer and boolean exit codes; untouched otherwise |
| Dispatch.ResultDict.ApplyOutputMode | linux_info_mcp/server.py:101-130 | the new dictionary for every mode, reason to skip, and outcome of the parser |
| Dispatch.OthersPassThrough | linux_info_mcp/server.py:88-130 | the two updates change no key but their own five |
| Dispatch.StdoutIsNeverLost | linux_info_mcp/server.py:101-130 | stdout disappears iff the mode is "parsed" and the parser accepted that very text, `parsed` then being its value and the status "ok" |
| Dispatch.ParseStatusOkIff | linux_info_mcp/server.py:108-127 | status "ok" iff the output is whole, the command did not fail, and the parser accepts it |
| Dispatch.MultiHostFailed | linux_info_mcp/server.py:254-264 | the loop's count is the number of slots with an error or a non-zero exit code |
| Dispatch.ResolveOutputMode | linux_info_mcp/validate.py:250-269 | succeeds iff both argument and environment, where given, name a mode; the environment's wins, then the argument's, then raw |
| Dispatch.CallTool | linux_info_mcp/server.py:268-359 | which answer a call gives, validation errors with their text and in their order included, that it is logged under the call's own context with host and parse status as documented, and that the context is restored on every path, an encoder exception included |
| Dispatch.AnyScheduleFillsTheSlots | linux_info_mcp/server.py:239-251 | the real pool of a call never exceeds LINUX_INFO_PARALLELISM and 25 workers, and under any schedule ends with the slots the answer reports |
| Dispatch.SlotAgreesWithCall | linux_info_mcp/server.py:224-236 | a slot is the single call's reply apart from `host`, or carries its exact error text; `host` is the target iff the handler gave none of its own or the same |
| Dispatch.SlotFailedIff | linux_info_mcp/server.py:254-264 | a slot counts as failed iff the single call is not "ok" or its reply has an error of its own |
| Dispatch.MultiAgreesWithSingles | linux_info_mcp/server.py:289-312 | for every host of an accepted list the call on that host alone is accepted in the same mode and gives the slot's reply |
| Dispatch.PartialCountsFailedCalls | linux_info_mcp/server.py:308-311 | outcome "partial" iff some single call would fail, with exactly their number in the error text, "ok" otherwise |
| Printing.ScanQuote | linux_info_mcp/ssh.py:89 | a shell that reads a quoted value gets back its characters, whatever they are, and stops right behind it |
| Printing.QuoteIs | linux_info_mcp/ssh.py:84 | which texts shlex.quote leaves alone, and what it does with the rest |
| Printing.TokensOfShow | linux_info_mcp/ssh.py:128 | tokenising a printed line gives exactly the tokens of its items, for all values in them |
| Plans.ParseLine | linux_info_mcp/ssh.py:107 | parsing a printed plan gives the plan's own syntax tree: pipeline, redirection and mask |
| Plans.RunLine | linux_info_mcp/ssh.py:107 | running a printed line is running its commands one into the next, with status 1 masked and other failures collapsed to 1 where the mask is printed |
| Plans.ArgvOfLine | linux_info_mcp/ssh.py:128 | a printed single command reads back, under LC_ALL=C, as exactly its argument vector |
| Builders.ReadText | linux_info_mcp/ssh.py:88-107 | the concatenated string is the printed form of the intended pipeline, with and without codec, flags and pattern |
| Builders.FilterMeaning | linux_info_mcp/ssh.py:102-107 | the line yields exactly grep's output on the source's output; status 0 iff grep's is 0 or 1, otherwise 1 |
| Builders.ReadMeaning | linux_info_mcp/ssh.py:95-107 | the same for read_file with any path, pattern, flags and codec |
| Builders.SourceStatusIgnored | linux_info_mcp/ssh.py:107 | two hosts that differ only in the source's exit status give the same result |
| Builders.ReadArgv | linux_info_mcp/ssh.py:88-103 | without a pattern the shell reads the decompressor or cat, `--` and the path as one word |
| FindCommand.ValidateFindArgs | linux_info_mcp/validate.py:171-206 | accepts exactly the valid requests, and the map says what the request says, under every key |
| FindCommand.BuildFind | linux_info_mcp/ssh.py:110-128 | the joined parts are the printed form of the find command |
| FindCommand.FindRoundTrip | linux_info_mcp/ssh.py:110-128 | decoding the words the shell reads recovers path and predicate map, also where a value spells a flag |
| FindCommand.FindWords | linux_info_mcp/ssh.py:110-128 | the words find receives: each key's value behind its own flag, in this order |
| FindCommand.TimesAndSizesAre | linux_info_mcp/validate.py:17-18 | the signs and units that mtime and size may have |
| FindCommand.FindIsInjective | linux_info_mcp/ssh.py:110-128 | different validated requests never print the same line |
| FindCommand.FindRequestRoundTrip | linux_info_mcp/tools/files.py:50-63 | from request through validation, printing and shell back to the map, which stands for that request alone |
| ToolCommands.BinaryText | linux_info_mcp/ssh.py:131-139 | the concatenated string is the printed form of the intended pipeline |
| ToolCommands.BinaryMeaning | linux_info_mcp/ssh.py:131-139 | dd cuts the window from the file, or from the decompressed stream when there is a codec, and the line yields base64's output and status |
| ToolCommands.TarCommand | linux_info_mcp/tools/archive.py:32-36 | the joined parts are the printed form of the tar command |
| ToolCommands.ListRoundTrip | linux_info_mcp/tools/archive.py:32-42 | the words tar receives for a listing, format by format |
| ToolCommands.BuildArchiveRead | linux_info_mcp/tools/archive.py:45-63 | the text is the printed form of the member's plan: plain, filtered or base64 |
| ToolCommands.ArchiveMeaning | linux_info_mcp/tools/archive.py:45-63 | a filtered member is exactly grep's output on it under the masked status, for all formats and values |
| ToolCommands.ArchiveBinaryMeaning | linux_info_mcp/tools/archive.py:57-58 | a binary member is base64's output on it |
| ToolCommands.BuildStat | linux_info_mcp/tools/fs.py:259-286 | refuses exactly terse with format and unknown cached modes; otherwise the printed form of the stat command |
| ToolCommands.StatRoundTrip | linux_info_mcp/tools/fs.py:259-286 | the shell reads back the intended words: the format glued to its flag, each path one word behind `--` |
| DockerCommands.BuildDockerPs | linux_info_mcp/tools/docker.py:93-128 | refuses exactly two of all, latest and last together; otherwise the printed form |
| DockerCommands.PsRoundTrip | linux_info_mcp/tools/docker.py:93-128 | the shell reads back the intended words; every filter is one `key=value` word |
| DockerCommands.BuildDockerLogs | linux_info_mcp/tools/docker.py:381-407 | the text is the printed form of the log command, alone or merged into grep |
| DockerCommands.LogsRoundTrip | linux_info_mcp/tools/docker.py:392-400 | the shell reads back the intended words, since and until glued to their flags |
| DockerCommands.LogsMeaning | linux_info_mcp/tools/docker.py:401-406 | grep reads both streams mixed, and only its output and its masked status show |
| Base64.EncodedLength | linux_info_mcp/validate.py:231-233 | four characters for every started group of three bytes |
| Base64.AlphabetIs | linux_info_mcp/tools/files.py:86-92 | the 64 symbols and the padding of RFC 4648 |
| Base64.GroupsAre | linux_info_mcp/tools/files.py:86-92 | three bytes are encoded as the base-64 digits of the number they are in base 256; one or two are filled up with zeros and padding |
| Base64.DecodeEncode | linux_info_mcp/tools/files.py:86-92 | decoding undoes encoding for all byte strings |
| Base64.DecodeCut | linux_info_mcp/tools/archive.py:106-111 | an encoding cut short decodes iff cut between groups, and then to the bytes of the whole groups |
| Base64.SqueezeDecodes | linux_info_mcp/tools/files.py:87 | removing white space never changes what is decoded |
| BinaryRead.ValidateOffsetLength | linux_info_mcp/validate.py:231-247 | accepts exactly offsets >= 0 with length 1 or 4 * length <= 3 * (max_bytes - 8) |
| BinaryRead.WindowsFit | linux_info_mcp/validate.py:231-233 | the text of every accepted length fits in max_bytes iff max_bytes is at least 4 |
| BinaryRead.DecodeReply | linux_info_mcp/tools/files.py:83-99 | text that decodes is returned re-encoded; text that does not gives no bytes, the marker, and exit code 1 in place of 0 |
| BinaryRead.HandleReadBinary | linux_info_mcp/tools/files.py:74-99 | over any legal run of the capture: the same requests are accepted; for max_bytes of at least 4 a drained run without a timeout returns exactly the window, not truncated, and below that no bytes; after a timeout the whole groups of the part of the text that was sent, or nothing, under 124; an undrained run is empty under a clear flag |
| BinaryRead.WindowsJoin | linux_info_mcp/tools/files.py:77 | consecutive windows put together are the file |
| BinaryRead.ReadMemberBinary | linux_info_mcp/tools/archive.py:104-118 | over any legal run: a drained member comes back whole, or cut to its first 3 * cap / 4 bytes iff the cap is a multiple of 4, or as nothing with marker and failing exit code; a timeout that stops the text within the cap leaves its whole groups, or nothing if it does not end between groups, under 124; a text beyond cap, read-ahead and pipe always times out; an undrained one is empty |
| BinaryRead.DecodeBounded | linux_info_mcp/tools/archive.py:104-111 | what the captured text of any bytes decodes to, for every cap |
| BinaryRead.OversizeMember | linux_info_mcp/tools/archive.py:95-118 | the reply for a member beyond all room, in a run that timed out when it was blocked: what the cap leaves of it, truncated, under 124, with the marker behind the stderr that was drained |
| WindowRead.LineWritesWindow | linux_info_mcp/ssh.py:131-139 | where dd slices and base64 encodes, the printed line writes the base64 text of the window, of the file or of the decompressed stream |
| WindowRead.ReadBinary | linux_info_mcp/tools/files.py:74-99 | from validation, with the same bound, through command, shell and capture to the reply: exactly the window, when max_bytes is at least 4 and stdout was drained without a timeout; in any other run what the captured part of its text decodes to |
| WindowRead.ReadMember | linux_info_mcp/tools/archive.py:81-118 | the same for a binary member: what the captured part of its text decodes to, what a cap leaves of it without expired deadlines, and 124 beyond all room |
| StatFormat.ScanIsLanguage | linux_info_mcp/tools/fs.py:231-248 | the scan accepts a format iff it is a sequence of literals, `%%` and directives whose specifier the mode allows |
| StatFormat.LetterAccepted | linux_info_mcp/tools/fs.py:20-21 | the directives of one letter that each mode accepts |
| StatFormat.PairAccepted | linux_info_mcp/tools/fs.py:20 | `%Hd`, `%Ld`, `%Hr` and `%Lr` are accepted in file mode alone |
| StatFormat.ValidateStatFormat | linux_info_mcp/tools/fs.py:231-248 | accepts exactly the non-empty formats of that language up to 512 characters without unsafe characters, unchanged |
| StatFormat.FieldMatches | linux_info_mcp/tools/fs.py:20-22 | at a printed directive the first match of the backtracking expression is that directive with its own specifier, however flags, width and precision share the zeros |
| StatFormat.MatchAdvances | linux_info_mcp/tools/fs.py:239-247 | a match moves the position forward |
| StatFormat.DecompositionIsUnique | linux_info_mcp/tools/fs.py:239-247 | a format falls into pieces in one way only, up to how a directive shares out its zeros |
| FreeParser.TakeLine | linux_info_mcp/tools/_parsers.py:84-107 | one line of the loop on the mutable records: `cur` is null or the object last in the list, and the values change as the scan says |
| FreeParser.ParseFree | linux_info_mcp/tools/_parsers.py:76-108 | distinct fresh records whose final values are the scan of the lines, updates through the alias included |
| FreeParser.SwapLandsOnLastStart | linux_info_mcp/tools/_parsers.py:100-107 | a swap line lands on the sample begun last, on a record of its own after an unreadable start, and a later one replaces it |
| FreeParser.MemoryIsConserved | linux_info_mcp/tools/_parsers.py:93-99 | the rows' memory parts are the readable memory lines in order, and no row is empty |
| FreeParser.FaithfulReads | linux_info_mcp/tools/_parsers.py:35-73 | a printed line is classified as meant, in any case and spacing, for 3, 6 or 7 columns and surplus ones |
| FreeParser.FreeRoundTrip | linux_info_mcp/tools/_parsers.py:76-108 | a printed report of any samples, with memory, swap or both, refused starts and repeated swap lines, reads as those samples, whatever header, blank, total and other lines stand between |
| FreeParser.EveryReportIsBlocks | linux_info_mcp/tools/_parsers.py:76-108 | every text says such samples and nothing else, and is read as them: the round trip leaves out no report |
| DfParser.ParseDf | linux_info_mcp/tools/_parsers.py:8-32 | raises exactly on a non-blank report with a wrong header; otherwise the rows of the lines that have one, in order |
| DfParser.PrintedReads | linux_info_mcp/tools/_parsers.py:17-30 | a printed row reads as itself with inner spaces of the mount kept; lines of six or more columns whose numbers are refused, of at most five tokens, and blank ones read as nothing |
| DfParser.DfRoundTrip | linux_info_mcp/tools/_parsers.py:8-32 | a printed report reads as its rows, whatever wrapped, refused and blank lines stand among them |
| Sections.SplitSections | linux_info_mcp/tools/triage.py:76-85 | the dictionary holds under each marker name exactly the lines in force under it, over all its occurrences |
| Sections.MarkerIff | linux_info_mcp/tools/triage.py:80-82 | a marker is a name between three equality signs on either side |
| Sections.LinesAreConserved | linux_info_mcp/tools/triage.py:79-84 | from the first marker on every other line is in a section, once and in order |
| Sections.BodiesPartition | linux_info_mcp/tools/triage.py:83-84 | a section holds a line as often as the text has it there |
| Sections.RenderReads | linux_info_mcp/tools/triage.py:76-85 | printed sections are read back, those of one name joined in order |
| Sections.SectionsRoundTrip | linux_info_mcp/tools/triage.py:76-85 | sections of distinct names come back, each with its own lines, and nothing else does |
| Sections.OrderIsIrrelevant | linux_info_mcp/tools/triage.py:76-85 | permuting the sections and changing the preamble gives the same dictionary |
| Numbers.DivisionIs | linux_info_mcp/tools/triage.py:276-432 | which quotients raise which exception, on either side of 0; all others are exact |
| Numbers.ReadIsPrintable | linux_info_mcp/tools/triage.py:105-109 | a number that int() has read can be printed in a warning |
| Numbers.RangeIsPrintable | linux_info_mcp/tools/triage.py:394-398 | under every digit limit of CPython there are readable numbers that no float holds |
| Warnings.BuildWarnings | linux_info_mcp/tools/triage.py:270-444 | ends with the rules' warnings in order iff no ratio of the facts leaves the floats and no interface is bad, and otherwise with the exception of the first that does |
| Warnings.WarningIff | linux_info_mcp/tools/triage.py:270-444 | a machine gets exactly the warnings its facts call for, kind by kind, with every threshold written out |
| Warnings.CheckNics | linux_info_mcp/tools/triage.py:428-442 | the interface rule ends with its warnings iff no interface has -1 packets, a quotient that is no float, or reported losses too long to print |
| Warnings.RulesRaiseIff | linux_info_mcp/tools/triage.py:270-444 | the same condition for all rules; a ratio of load, memory, swap or conntrack is reported as OverflowError before any interface |
| Warnings.FirstBadNicDecides | linux_info_mcp/tools/triage.py:428-442 | which of the three exceptions it is: the first bad interface decides, its received packets before its sent ones, and both before the printing |
| Warnings.LossesCanPassTheLimit | linux_info_mcp/tools/triage.py:429-442 | an interface whose counters are all read and whose losses are too long to print |
| Warnings.RulesInWholeNumbers | linux_info_mcp/tools/triage.py:287-312 | the memory, swap and conntrack thresholds as comparisons of whole numbers, without a division |
| Warnings.LoadRuleWithoutDivision | linux_info_mcp/tools/triage.py:273-285 | the load thresholds as comparisons of the load with multiples of the CPU count |
| Warnings.LossyInWholeNumbers | linux_info_mcp/tools/triage.py:428-435 | a direction is lossy from 100 losses on and above 1% of packets + 1 |
| Warnings.TaintRule | linux_info_mcp/tools/triage.py:418-426 | the taint rule fires iff one of bits 2, 4, 5, 7, 9 is set, whatever other bits are |
| Warnings.WorseNeverHidesWarnings | linux_info_mcp/tools/triage.py:270-444 | when the facts worsen and the rules still end, the old warnings stay, in order and as many, none less severe |
| Warnings.WorseRaisesIff | linux_info_mcp/tools/triage.py:270-444 | when the facts worsen the rules start to raise iff the conntrack count or the losses of an interface have outgrown the floats or the digit limit; never by a division by zero |
| Warnings.WorseCanSilence | linux_info_mcp/tools/triage.py:394-408 | a machine with a critical warning and a worse one whose report is refused |
| Warnings.EmbedsKeepsEach | linux_info_mcp/tools/triage.py:270-444 | what that order means for one warning: same kind and subject, at least the old severity |
| NetDev.ParseNetErrors | linux_info_mcp/tools/triage.py:240-267 | the rows of the readable lines in order, without the loopback |
| NetDev.TableLineReads | linux_info_mcp/tools/triage.py:243-266 | a line of the kernel's table, with any padding, reads as its own six counters; headings, blank lines, the loopback and counters too long to convert read as nothing |
| ProcFiles.ParseMeminfo | linux_info_mcp/tools/triage.py:112-121 | the last number under each of the four keys, or the exception of the first line that raises |
| ProcFiles.ParseConntrack | linux_info_mcp/tools/triage.py:229-233 | the first two numbers of the text, or the exception of the first line that raises |
| ProcFiles.FirstIntRaisesIff | linux_info_mcp/tools/triage.py:105-109 | reading the first number raises iff it has more digits than int() converts |
| ProcFiles.MemoryRaisesIff | linux_info_mcp/tools/triage.py:112-121 | the memory section raises iff the first number under one of its keys is too long |
| ProcFiles.ConntrackRaisesIff | linux_info_mcp/tools/triage.py:229-233 | the conntrack section raises iff any of its lines, not only the first two, is a number too long |
| Triage.ParseTriage | linux_info_mcp/tools/triage.py:447-480 | all facts of a text and their warnings, or the exception that ends the parse |
| TriageFacts.NumbersRead | linux_info_mcp/tools/triage.py:447-475 | of a printed report, in any spacing: each memory fact is the last number under its own key, and CPUs, taint, conntrack count and maximum are the numbers of their sections |
| TriageFacts.ProbesRead | linux_info_mcp/tools/triage.py:447-480 | every other fact is its own probe's value on the body of the section of its name |
| Triage.OrderOfProbesIsIrrelevant | linux_info_mcp/tools/triage.py:447-480 | permuting the sections leaves the whole result unchanged |
| Triage.RaisesIff | linux_info_mcp/tools/triage.py:447-480 | for every text: parsing raises iff a number read outside any handler is too long, a ratio of the facts leaves the floats, or a line of the net_dev section reads as a bad row; the first two come in this order |
| Triage.SectionRows | linux_info_mcp/tools/triage.py:88-89 | joining and stripping a section, then splitting it again, changes no row of it |
| Triage.PrintedRaisesIff | linux_info_mcp/tools/triage.py:447-480 | the same for a printed report, on the very lines of its net_dev section |
| Triage.TableRaisesIff | linux_info_mcp/tools/triage.py:428-442 | the same for a report with the kernel's table, headings, padding and loopback included, on the interfaces it prints |
| Triage.ParseTriageCanRaise | linux_info_mcp/tools/triage.py:431-432 | a table with a row of -1 packets, on which parsing raises ZeroDivisionError |
| Triage.ConntrackCanOverflow | linux_info_mcp/tools/triage.py:394-398 | every conntrack section whose quotient is no float raises OverflowError |
| Triage.ParseTriageCanOverflow | linux_info_mcp/tools/triage.py:394-398 | under CPython's floats and any of its digit limits there is such a section |
| Triage.ParseTriageCanReachTheLimit | linux_info_mcp/tools/triage.py:105-109 | under any digit limit every longer CPU count raises ValueError |

## Left out

- Capture.ReadBounded: `Pipe` stands for the buffered file object; what that object has taken from the kernel's pipe beyond its caller's wishes appears only as the read-ahead of the step system.
- Capture.PatientRunOutcome: a process other than the child that keeps the pipes open after the child has exited is not modelled; exit closes both write ends.
- CallContext.ReachableInv: an attempt to enter a context that another thread has entered, which Python refuses with an exception, is not a step.
- Dispatch.CallTool: cancellation of the awaiting task, and exceptions that are no `Exception`, are not modelled here; that leaving a call restores the context at any moment is `CallContext.LeaveRestores`.
- Dispatch.ResultDict.ApplyOutputMode: the order of dictionary keys, and the names of exception subclasses of `ValueError` in `parse_status`, are not modelled.
- Dispatch.KindAgainstFlag: the wording of the stderr patterns is left open; they are arbitrary predicates.
- FanOut.FanOutRefinesMap: a host's run is a function of the host; that two runs on one host may differ in time is not modelled.
- Printing.ScanQuote: shell constructs that the builders never print (expansions other than `$?`, patterns, compound commands, here-documents) make the reader fail instead of being modelled; `[` is modelled as far as integer equality.
- Builders.ReadMeaning: the remote utilities are arbitrary functions without side effects; a pipe that breaks early is not modelled.
- WindowRead.ReadBinary: the exit code of the SSH client is taken to be the remote line's.
- Base64.SqueezeDecodes: the decoder follows CPython's non-strict binascii.
- Warnings.BuildWarnings: a ratio within the range of the floats is an exact real, so a value that only rounding moves across a threshold, and a load or offset of `inf` or `nan`, are not modelled; nor is the free text of a warning. That the numbers of a warning other than an interface's losses can be printed is taken from their having been read, or being counts of lines.
- Triage.ParseTriage: the parsers of the load, disk, unit, pressure, process, clock and reboot sections, which catch what they raise, are arbitrary functions of their sections' texts.
- Hosts.ValidateHost: text is ASCII; non-ASCII white space and digits are not modelled in any parser, and the digit limit of `int()` only in those of the triage report.
- FindCommand.ValidateFindArgs: arguments of a wrong type are not modelled; optional texts and integers are. The texts of some of its errors, of those of `ValidateStatFormat` and `ValidateOffsetLength`, and of the digit limit are shortened.
- Validators of paths, codecs, archive formats, grep flags, docker filters and stat paths: whitelist lookups. The builders are proved for all values instead.
- `sudo` prefixes, the SSH argument vector, clocks, durations and log formatting.
- The other tool modules (network, processes, disks, packages, system, journal, sampling), schemas and tool discovery: they add only copies of the builder round trip.
- linux_info_mcp/tools/facts.py: its splitter repeats that of triage.
