# JANUS, modelled and proved in Dafny

JANUS runs coding agents under a policy that can only narrow, inside sandboxes whose effects it
observes, and records every event in an append-only log. This project models the parts of it whose
correctness is hardest to see from the code, and proves what they promise for every input, every
interleaving and every run. `dafny verify dfyconfig.toml` checks all of it.

What is modelled, by module:

* **Redaction, RedactionStream, RedactionCode, ProcessOutput.** The process broker's streaming secret
  redactor. The meaning of redaction is position-wise (a byte is covered if it lies in an occurrence of
  a secret; each maximal covered run prints one marker). The chunk-by-chunk redactor with its retained
  tail, its held-back groups, its forced flushes past 64 KiB and its covered prefix is proved to print
  exactly that, however the stream is cut.
* **ExitHandshake.** The broker's exit handshake between the control loop and the exit observer, as
  interleaved steps.
* **Overlay, UpperWalk, FsDiff, Collector.** The overlay diff: a scan of the upper layer with whiteouts,
  opaque directories and replacements against a baseline, proved exact against the merged view of the
  Linux overlayfs documentation ("whiteouts and opaque directories") and the OCI image layer
  specification ("Opaque Whiteout").
* **Events, LogWriter, Replay, Fork.** The single-writer log over every interleaving of producers, queue,
  close and store failure; replay as a fold with checked 64-bit sums; fork as a copy that commutes with
  replay, end to end through the destination's writer.
* **ApprovalBroker, Coordinator.** The two halves of the approval protocol, each mutex-held region one
  step.
* **Selectors, Policy, PolicyCode.** Host and selector canonicalisation, profile merging and request
  evaluation, and the narrowing theorem with its exact conditions.
* **TurnLoop.** The turn and step machine under arbitrary models, tools and hooks.
* **Launch.** Exactly-once acceptance and launch over concurrent, crashing processes.
* **AuditMatch.** Matching of reported against observed file changes.
* **Wire.** The binary framing of the process broker.
* **Pump, CodexParser, ClaudeParser, ApprovalRace.** The host's acceptor of adapter events, and the two
  adapters that have to satisfy it: their stream parsers, the loops that drive them to the end of a session,
  and the approval requests that share the Claude adapter's wire.
* **Octets, Wrappers, Sorting** are shared helpers.

Concurrent parts are step machines: a run is a list of labels, `Exec` folds them, and every theorem is
about all label lists. Code that works in place is a class or a method with loops, proved against the
function that the theorems are about. Such a function is not taken for granted either: beside it stands a
theorem that says what it amounts to in other terms, of labels, of lines, of positions or of the merged view
(`LogWriter.TerminalMeans`, `Coordinator.AnswersAreDecisions`, `Launch.RepliesTell`,
`CodexParser.StreamTells`, `ClaudeParser.StreamTells`, `AuditMatch.RowsExactly`, `Replay.FoldMeans`,
`TurnLoop.Loop.RunTurn`, `FsDiff.ScanSupports`).

What is outside enters as a parameter: redaction and schema validation of log records
(`LogWriter.Config.prepare`), store failures, admission, clocks, models, tools and hooks
(`TurnLoop.Env`), white space, lower case, path cleaning, IP, version and digest syntax
(`Selectors.Env`), the key hash (`Launch`), short and failing writes (`Wire.Sink`). JSON has been read
before the parsers see a line. Hashes and payloads are opaque values.

Where the code and its own comments disagree the code is modelled:

* `seams/world/local/process_broker.go:616-617` says that a request's acknowledgement is ordered before
  the exit frame. The exit observer can send the exit frame between the receipt of a request and its
  acknowledgement; `ExitHandshake.ExitCanOvertakeAnAck` gives such a run, and
  `ExitHandshake.AckIsOvertakenExactlyWhen` says that this can happen exactly if the observer, when the
  request arrives, is writing the frame or about to claim it.
* `core/policy/policy.go:3-6` says that no overlay can widen a profile. It can in three ways: a registry
  host canonicalises further the second time (`Policy.TwoDotsWiden`), the host of a selector does
  (`Policy.TwoDotsInSelectorWiden`), or an extension's name itself reads as a bound selector
  (`Policy.AmbiguousNamesWiden`). `Policy.RegistriesNarrow` and `Policy.SelectorsNarrow` are the exact
  conditions for each list, and `Policy.MergeNarrows` is stated over them; `Policy.ProfileNarrows` is the
  exact condition for whole profiles.
* `seams/world/local/approval.go:445-447` says that an intent that contradicts an earlier hook fails the
  whole broker closed. The call's ledger entry is gone before the failure takes effect, and in between a
  second hook of the call can go without a forced deny; `ApprovalBroker.MismatchFreesTheCall` gives such a
  run, `ApprovalBroker.SecondFreeHook` the exact condition.
* `seams/subagent/codex/parse.go:300-303` says that a stream that ends early after ready yields an error
  done, and `seams/subagent/codex/parse.go:21-22` that lines over 64 KiB are accepted. The adapter's loop
  drops that done (`seams/subagent/codex/adapter.go:52-55`), its scanner ends the session without one at a
  line of 64 KiB (`seams/subagent/codex/adapter.go:25`, `seams/subagent/codex/adapter.go:49-51`), and for a
  line after the end of the turn it sends a second done (`seams/subagent/codex/adapter.go:36-40`), which the
  host refuses. `CodexParser.AdapterStream` says exactly when each happens, `CodexParser.SlipsMean` the
  same in terms of the lines, and `CodexParser.AdapterSlips` that all do.
* `seams/subagent/subagent.go:303-306` forbids any output after done. The Claude adapter's approval server
  writes its requests on the same wire, and `seams/subagent/claudecode/adapter.go:460` sends done without
  waiting for it, so a request can follow done and is refused. `ApprovalRace.RequestAfterDone` has such a run
  for every session, `ApprovalRace.RefusedExactlyWhen` the exact condition.
* `seams/subagent/approval.go:216-219` says that termination denies every other pending request. A request
  that reuses the id of one just answered is dropped without an answer;
  `Coordinator.ReusedIdIsForgotten` gives such a run, `Coordinator.EveryoneIsAnswered` the exact condition.

## Model

| member | source | states |
|---|---|---|
| `RedactionCode.Index` | seams/world/local/process_broker.go:1127-1136 | the first occurrence at or after an offset, or that there is none |
| `RedactionCode.FindIntervals` | seams/world/local/process_broker.go:1122-1137 | the list holds exactly the occurrences of the non-empty secrets, overlapping ones included |
| `RedactionCode.MergeIntervals` | seams/world/local/process_broker.go:1171-1192 | the merged groups cover the same positions, are in order, and neither overlap nor touch |
| `RedactionCode.Groups` | seams/world/local/process_broker.go:1250-1262 | merging the occurrences gives exactly the maximal runs of covered bytes |
| `RedactionCode.RedactIntervalsCovered` | seams/world/local/process_broker.go:1101-1169 | for all bounds, in range or not, the output is the position-wise rendering between the clamped bounds: uncovered bytes as they are, one marker per maximal run that starts there |
| `RedactionCode.ConsumedEnd` | seams/world/local/process_broker.go:1263-1276 | what may be emitted ends where the covered run that reaches the safe end begins, or at the safe end |
| `RedactionCode.FlushedCover` | seams/world/local/process_broker.go:1290-1304 | how far the covered run that is cut by a forced flush reaches beyond the cut, computed from the groups of the longer buffer |
| `ProcessOutput.Broker.constructor` | seams/world/local/process_broker.go:1194-1209 | the configured secrets are the non-empty given ones and the longest length is theirs; both streams start empty |
| `ProcessOutput.Broker.RedactChunk` | seams/world/local/process_broker.go:1225-1319 | output, retained tail and covered count are those of the value-level feed; the other stream is untouched |
| `ProcessOutput.Step` | seams/world/local/process_broker.go:1250-1316 | one chunk with enough bytes: the hold-back, and the forced flush past 64 KiB |
| `ProcessOutput.ForcedFlush` | seams/world/local/process_broker.go:1285-1315 | an oversized tail is printed up to its last maxLen - 1 bytes and the covered prefix carries over |
| `ProcessOutput.Broker.WriteOutput` | seams/world/local/process_broker.go:1059-1076 | a chunk adds at most one data frame of its stream, none after stream end; if the wire fails the frame is lost, the stream has moved on and the call fails |
| `ProcessOutput.Broker.SendStreamEnd` | seams/world/local/process_broker.go:1321-1369 | both tails are written out redacted, stdout first, then one stream-end frame with a redacted error; the first frame that fails ends the attempt, keeping its tail; a call after success does nothing |
| `RedactionStream.ChunkingIsInvisible` | seams/world/local/process_broker.go:1225-1347 | for every secret set and every cutting into chunks, forced flushes included, the output is the one-shot output up to repeated markers, and exactly the one-shot output if no flush was forced |
| `RedactionStream.NoSecretByteIsPrinted` | seams/world/local/process_broker.go:1101-1192 | erasing the markers leaves exactly the bytes outside every occurrence of every secret |
| `RedactionStream.CutsAgree` | seams/world/local/process_broker.go:1085-1095 | two cuttings of the same stream differ at most in repeated markers |
| `RedactionStream.TailIsBounded` | seams/world/local/process_broker.go:1281-1317 | after any chunks the tail is at most max(64 KiB, longest secret minus 1) and the covered prefix lies within it |
| `RedactionStream.HeldBackIsCovered` | seams/world/local/process_broker.go:1249-1278 | output is prompt: after any chunks, beyond the last maxLen - 1 bytes only bytes of secrets are held back |
| `RedactionStream.ForcedByLongRun` | seams/world/local/process_broker.go:1281-1317 | a flush is forced only by a run of covered bytes of about 64 KiB or more |
| `RedactionStream.ExactWithoutLongRun` | seams/world/local/process_broker.go:1225-1347 | without such a run, and so for every shorter stream, the output is exactly the one-shot output, however it is cut |
| `ProcessOutput.ClosedIsOneShot` | seams/world/local/process_broker.go:1321-1347 | chunks plus final tail flush amount to the one-shot redaction, with or without secrets |
| `ProcessOutput.StreamsAreRedacted` | seams/world/local/process_broker.go:1059-1369 | any run of writes to both streams, an end, and anything later: the frames of the writes, what is left of stdout and then of stderr, and the single stream-end frame; each stream shows the redaction of what was written to it |
| `ProcessOutput.NothingAfterEnd` | seams/world/local/process_broker.go:1059-1076 | once ended, no operation changes the plane |
| `ProcessOutput.BrokenWireShowsPrefix` | seams/world/local/process_broker.go:1059-1369 | over a wire that breaks after any number of frames, every run, attempts to end it again included, delivers exactly the first frames of the run over a wire that holds |
| `ExitHandshake.StepKeeps` | seams/world/local/process_broker.go:582-626 | every step of either thread keeps the handshake invariant: frames sent and claims held add up to the sent flag |
| `ExitHandshake.ExitExactlyOnce` | seams/world/local/process_broker.go:863-917 | in every interleaving at most one exit frame, never before the wait acknowledgement; once wait is acked, the result known and no ack pending it is on the wire or a thread is about to put it there; at rest it is on the wire exactly if the acknowledgement of wait is |
| `ExitHandshake.AcksAnswerRequests` | seams/world/local/process_broker.go:582-626 | in every interleaving each request received is acknowledged once and in order, all but the one in hand |
| `ExitHandshake.SendersFinish` | seams/world/local/process_broker.go:863-917 | the control loop, or the observer, that is about to send is not blocked and its two steps put the frame on the wire |
| `ExitHandshake.ExitCanOvertakeAnAck` | seams/world/local/process_broker.go:611-626 | a run in which the exit frame precedes the acknowledgement of a request already received |
| `ExitHandshake.AckIsOvertakenExactlyWhen` | seams/world/local/process_broker.go:611-626 | for every run and every request received at rest: some continuation puts the exit frame before the request's acknowledgement exactly if the observer is writing it, or is about to send it and nobody has claimed it |
| `Overlay.HiddenBelow` | collector/fsdiff.go:364-464 | a lower leaf is invisible exactly if something at or above it hides it |
| `UpperWalk.WalkListScans` | collector/fsdiff.go:364-464 | a scan that succeeds has seen exactly the nodes of the directory, recorded exactly the change due at each and found exactly the hidden directories |
| `UpperWalk.WalkChildScans` | collector/fsdiff.go:380-461 | the same for one entry, branch by branch |
| `UpperWalk.WalkListFails` | collector/fsdiff.go:364-464 | a scan that fails met a node the overlay does not support: it names the path |
| `Collector.UpperScan.AddChange` | collector/fsdiff.go:466-476 | a path is recorded once; the only error is the limit, and then this change would pass it |
| `Collector.UpperScan.WalkUpper` | collector/fsdiff.go:364-464 | the in-place walk is the functional scan within the limits on depth, nodes and changes; an error names what stands against it: the limit that is passed, or a node that scan refuses |
| `Collector.UpperScan.Visit` | collector/fsdiff.go:380-461 | the same for one entry, branch by branch; what it refuses is said by `FsDiff.ScanSupports` without the scan |
| `Collector.UpperScan.ExpandOpaque` | collector/fsdiff.go:346-362 | in whatever order the baseline is visited, exactly the unseen leaves below hidden directories are added as deleted; an error means that the list is full, all of it due, and one more is |
| `Collector.Walk` | collector/fsdiff.go:185-244 | the lower walk adds exactly the record of the tree and counts its nodes, within the limits on depth and nodes; an error means that this limit is passed, or an unsupported node |
| `Collector.RecordIsTree` | collector/fsdiff.go:185-244 | a path is in the record exactly if the tree has a node there: a directory entry for a directory, else an entry of its kind with its hash |
| `Collector.SupportedMeans` | collector/fsdiff.go:185-244 | the lower walk refuses a tree exactly if a file lies in it that is neither a directory nor regular nor a symbolic link |
| `Collector.SizeIsRecord` | collector/fsdiff.go:185-244 | what the walk counts against its limit is exactly the entries it records |
| `Collector.DepthMeans` | collector/fsdiff.go:185-244 | what either walk holds against its depth limit is the longest path of a directory it enters |
| `Collector.BaselineWellFormed` | collector/fsdiff.go:68-87 | the record of a tree is a well-formed baseline: every parent of an entry is a directory |
| `Collector.ManifestsEqual` | collector/fsdiff.go:325-344 | size check plus one-sided lookup decides equality of the maps |
| `Collector.JoinInjective` | collector/fsdiff.go:364-380 | different component lists give different slash-joined paths, so the order by path has no ties |
| `FsDiff.ScanIsExact` | collector/fsdiff.go:89-144 | scan plus expansion hold exactly the change due at every path, each path once |
| `FsDiff.ScanSupports` | collector/fsdiff.go:380-461 | the scan refuses an upper layer exactly if its root holds the opaque marker or some node in it is special, a whiteout over nothing, a regular file over a lower symlink or a symlink over a lower regular file; said path by path, without the scan |
| `FsDiff.AppliedIsVisible` | collector/fsdiff.go:89-144 | applying an exact change list to the baseline's leaves gives, path by path, the leaf visible through the overlay |
| `Collector.ScanUpper` | collector/fsdiff.go:101-128 | the upper scan succeeds exactly if every node of the upper layer is supported against the baseline and its depth, its nodes and the changes due are within the limits, and then with an exact list; each error has its cause |
| `Collector.Diff` | collector/fsdiff.go:89-144 | succeeds exactly if the lower tree is supported and still is the baseline, every node of the upper layer is supported against it, and both are within the limits; the list is then exact, sorted by path, and applied to the baseline's leaves gives the visible view; an added path had no lower leaf and a modified one had one, both with the hash that is visible now, and a deleted one carries the hash of a lower leaf that is not visible any more; each error has its cause |
| `Collector.DiffIsDetermined` | collector/fsdiff.go:129-143 | baseline and upper layer determine the list, so map iteration order does not show |
| `LogWriter.LoopState.constructor` | core/logd/writer.go:99-133 | numbering continues after the stored records |
| `LogWriter.LoopState.ProcessOne` | core/logd/writer.go:285-330 | one submission, in place: the value-level step, for records and batches, refusals and store failure, which `LogWriter.CommitsExactly` and `LogWriter.StoreFailureIsFinal` characterise without it |
| `LogWriter.PrepareBatch` | core/logd/writer.go:293-303 | all of the batch is prepared, numbered from 1, or nothing |
| `LogWriter.ProcessSettles` | core/logd/writer.go:285-330 | a submission answered with n has exactly its records at the end of the log, the last at n; one answered with an error has none; numbering stays contiguous |
| `LogWriter.StepKeeps` | core/logd/writer.go:141-344 | every step of every producer, of the loop and of Close keeps the writer invariant |
| `LogWriter.RunsExtend` | core/logd/writer.go:141-344 | along any extension of a run the log only grows and what a call returned stays |
| `LogWriter.ReturnsAreFinal` | core/logd/writer.go:141-205 | over every interleaving and every extension: sequence numbers are contiguous from 1; a returned n means exactly this call's prepared records up to n, a batch filling the log from its beginning; any returned error, the drain race included, means the record is never in the log |
| `LogWriter.FailureIsFinal` | core/logd/writer.go:276-284 | once the writer is terminal, which `LogWriter.TerminalMeans` says of labels, and after the end of the loop that Close waits for, nothing is committed any more |
| `LogWriter.TerminalMeans` | core/logd/writer.go:285-330 | in every run the writer is terminal exactly if a store failure met a submission whose records could be prepared and numbered |
| `LogWriter.CommitsExactly` | core/logd/writer.go:285-330 | in every run a submission is committed exactly if the store takes it, no such failure came before, and it is ready: each of its records can be prepared under its number, and a batch finds an empty log; then under the next numbers, else with nothing stored |
| `LogWriter.StoreFailureIsFinal` | core/logd/writer.go:276-330 | after the failed commit of a ready submission, whatever follows: the log stays as it was, every answer in hand is an error, and every later call is refused at once as terminal |
| `LogWriter.ErrorsHaveCauses` | core/logd/writer.go:141-344 | in every run each error that an answer or a return carries has its cause: closed after a close, cancelled after this call gave up, terminal after a store failure, refused for a record that cannot be prepared, an empty batch, a batch on a log that is not empty |
| `LogWriter.NobodyIsStranded` | core/logd/writer.go:163-176 | when the loop has gone, whoever has no answer was never taken from the queue, and is released with ErrClosed |
| `Replay.DerivedState.AddTo` | core/logd/replay.go:84-133 | one usage value is added to the total, the actor, the span and the pair, or refused |
| `Replay.DerivedState.AppendMessage` | core/logd/replay.go:179-188 | root-span conversation and child results become messages, nothing else |
| `Replay.DerivedState.Take` | core/logd/replay.go:74-174 | one event, in place, is the step of the fold |
| `Replay.ReplayEvents` | core/logd/replay.go:62-176 | the loop computes the fold, and fails where it fails |
| `Replay.ChargeFits` | core/logd/replay.go:192-201 | once the total fits, no other account's check can fire; every account moves by exactly its share |
| `Replay.FoldExact` | core/logd/replay.go:74-133 | replay fails exactly when a number is out of order, a trace differs, a fork record does not decode, a usage is negative or a total passes MaxInt64; on success every account is the sum of what the events charge to it |
| `Replay.FoldBalances` | core/logd/replay.go:84-133 | totals equal the sum over actors, over spans and over (span, actor) pairs, and each span equals the sum over its actors |
| `Replay.FoldMeans` | core/logd/replay.go:135-173 | messages stand one to one, in order, for the root span's user messages, assistant messages, tool calls and tool results and for the results of children, each with its event's number, span and payload and in the role of its event's kind; counters count their kinds, the session is ended exactly if a session/end came, and the origin is that of the first session/fork |
| `Replay.AccountsHold` | core/logd/replay.go:84-133 | each account holds the sums of the input and of the output tokens of the events that concern it |
| `Replay.ReplayIsExact` | core/logd/replay.go:62-176 | all of the above for Replay as a whole, both directions of its success condition, messages by role and accounts by their sums |
| `Fork.Prepare` | core/logd/fork.go:26-79 | the four refusals, each exactly in its case; otherwise the fork record, with the source trace and point, the new trace, the root span and the last time of the prefix, followed by the prefix under the new trace |
| `Fork.CutIsPrefix` | core/logd/fork.go:43-56 | on a log in order the cut is the prefix ending at the fork point |
| `Fork.ForkCommutes` | core/logd/fork.go:58-79 | if the prefix replays, the fork replays to the same root span, usage books, counters and ended flag, the new trace, its own origin whatever the source's was, and each message under its event's place in the copy |
| `Fork.ForkedLogReplays` | core/logd/writer.go:285-312 | in every run of the destination writer in which the init batch returned without error, its log begins with that copy and replays so |
| `ApprovalBroker.Broker.AdmitHook` | seams/world/local/approval.go:389-436 | the step of the protocol that the theorems are about: refusals, forced reasons, pre-intent entry, consumed intent; success means exactly that the hook is staged for the queue |
| `ApprovalBroker.Broker.ClassifyLocked` | seams/world/local/approval.go:485-494 | mismatch, then duplicate, else the intent is consumed in place |
| `ApprovalBroker.Broker.RegisterIntent` | seams/world/local/approval.go:438-483 | registration before and after the hook; a mismatch is flagged only with an error |
| `ApprovalBroker.Broker.EnqueueHook` | seams/world/local/approval.go:496-506 | the hook is queued, or the queue was full |
| `ApprovalBroker.OneFreeHookPerCall` | seams/world/local/approval.go:389-494 | in every run up to the first post-hoc mismatch of a call, whichever of hook and intent comes first: at most one hook of the call goes without a forced deny, it agrees with any recorded intent of the call, and at most one allow is relayed |
| `ApprovalBroker.AdmitsExactly` | seams/world/local/approval.go:389-494 | in every reachable state a hook is admitted freely exactly if there is room, no deadline has passed, and the call has an unconsumed intent for the same tool or is in neither ledger with space left; each refusal and each forced reason, exactly in its case |
| `ApprovalBroker.RegistersExactly` | seams/world/local/approval.go:438-483 | an intent clears the call's pre-intent; a mismatch exactly if the tools differ, recorded as consumed exactly if they agree and nothing is over, and recorded as new exactly if nothing is over, the call is in neither ledger and there is space |
| `ApprovalBroker.MismatchesAreReal` | seams/world/local/approval.go:438-455 | in every run a mismatch is noted only for a call of which a hook and an intent disagree |
| `ApprovalBroker.EitherOrder` | seams/world/local/approval.go:389-494 | hook and intent of a call in either order: with the same tool the same ledger and a free hook; with different tools a known mismatch, or a hook denied for it |
| `ApprovalBroker.RelaysAreDecisions` | seams/world/local/approval.go:496-567 | in every run what is relayed is what was decided, in that order |
| `ApprovalBroker.QueueNeverFull` | seams/world/local/approval.go:389-567 | in every reachable state the ledgers are disjoint and within capacity; until done closes every hook on its way is in the table and one about to be queued finds room |
| `ApprovalBroker.FirstComeFirstServed` | seams/world/local/approval.go:496-567 | until done closes, hooks are taken in the order in which they were queued and none is lost |
| `ApprovalBroker.MismatchFreesTheCall` | seams/world/local/approval.go:442-455 | a run after a post-hoc mismatch in which two hooks of one call are allowed |
| `ApprovalBroker.SecondFreeHook` | seams/world/local/approval.go:389-436 | in every reachable state with a free hook of a call, a further hook of the call is free as well exactly if there is room, no deadline has passed, and the call has an unconsumed intent for the same tool or is in neither ledger with space left; and that is so only after a mismatch of the call |
| `Coordinator.ApprovalCoordinator.Begin` | seams/subagent/approval.go:61-86 | a start is accepted, refused after termination, or caught as a duplicate |
| `Coordinator.ApprovalCoordinator.Respond` | seams/subagent/approval.go:203-214 | the response is written only for a pending request of a live coordinator |
| `Coordinator.ApprovalCoordinator.Shut` | seams/subagent/approval.go:220-238 | termination empties the pending set and lists the ids to deny, its own first unless answered |
| `Coordinator.CollectDenials` | seams/subagent/approval.go:228-237 | in whatever order the map yields them, each other pending id is listed once |
| `Coordinator.AnswersAreLoggedFirst` | seams/subagent/approval.go:88-142 | in every interleaving an allow is written only after the same task's allow is committed; a task is answered at most once; after termination only denies to formerly pending ids, and nothing after the stop; that these answers are the decisions is `Coordinator.AnswersAreDecisions` |
| `Coordinator.AnswersAreDecisions` | seams/subagent/approval.go:88-142 | in every interleaving, over the labels: a task is decided at most once; whatever is committed for a task, and whatever is written before termination, carries the request id it began with and exactly what was decided for it |
| `Coordinator.DecisionsGoOut` | seams/subagent/approval.go:88-142 | before termination, the commit of a decided task commits that decision and its send writes that very answer to its request |
| `Coordinator.ForcedIsDenied` | seams/subagent/approval.go:88-142 | in every run a request that was started with a forced reason is never decided as allowed, nor fatal |
| `Coordinator.StartsExactly` | seams/subagent/approval.go:61-86 | before termination and if no write failed, a request is taken up exactly if every earlier one under its id has been answered |
| `Coordinator.FailuresTerminate` | seams/subagent/approval.go:88-142 | a failed commit, a failed write that is not excused and a fatal decision each lead to termination |
| `Coordinator.TerminatedMeans` | seams/subagent/approval.go:216-238 | the coordinator is terminated exactly if some task terminated it |
| `Coordinator.TerminationRunsOn` | seams/subagent/approval.go:220-261 | a termination that has not written the stop can always go on, with the next denial or the stop |
| `Coordinator.EveryoneIsAnswered` | seams/subagent/approval.go:220-261 | if no write failed, then once the stop is written every accepted request has its answer exactly if the first task to terminate did not, after its own send, find its id pending again |
| `Coordinator.DropsExactly` | seams/subagent/approval.go:220-238 | exactly when a request is forgotten, and which: when the first task to terminate had come to its send and finds its id pending again |
| `Coordinator.OwnRequestFirst` | seams/subagent/approval.go:220-238 | a termination denies the terminating task's own request first, if it has not come to its send |
| `Coordinator.ReusedIdIsForgotten` | seams/subagent/approval.go:133-142 | a run in which a reused id is accepted and never answered |
| `Selectors.ParseShape` | core/policy/extensions.go:193-206 | what a selector parses to: a name that is non-empty and starts well, and a host free of delimiters and not an IP |
| `Selectors.TextReadsBack` | core/policy/extensions.go:146-160 | a selector whose host is a fixed point reads back from its text |
| `Selectors.OwnTextIsFixed` | core/policy/extensions.go:193-206 | a bound selector's text that canonicalises to itself holds a host that does |
| `Policy.MergeAdmitsExactly` | core/policy/extensions.go:146-191 | a merged selector list admits (name, source) exactly when both lists do, for names that do not read as bound selectors |
| `Policy.QualifiedNamesDiffer` | core/policy/extensions.go:72-74 | for every other name there are lists that both admit it while their merge does not |
| `Policy.MergeAdmitsNarrows` | core/policy/extensions.go:146-191 | with fixed-point hosts, what the merged list admits both lists admit, for every name that is not ambiguous |
| `Policy.AmbiguousNamesWiden` | core/policy/extensions.go:72-74 | for every ambiguous name there are lists whose merge admits it though one of them does not |
| `Policy.SelectorsNarrow` | core/policy/extensions.go:146-191 | merged selectors narrow, for every name that the merged list does not hold as a bound selector, exactly when whatever evaluation reads in place of a meeting is held by both lists, at least unbound; and for every name at all exactly when both lists hold every such reading |
| `Policy.RegistriesNarrow` | core/policy/policy.go:92-106 | merged registries narrow exactly when canonicalising a common host leads to a common host again |
| `Policy.MergeNarrows` | core/policy/policy.go:44-62 | under the two exact conditions, what the merge accepts both parts accept, with at least as much egress and budget, and automatic approval only if both have it; only names that the merged list holds as bound selectors are excluded |
| `Policy.FixedHostsNarrow` | core/policy/policy.go:44-62 | profiles with fixed-point hosts meet both conditions, and their merge confuses only ambiguous names |
| `Policy.ProfileNarrows` | core/policy/policy.go:44-62 | for whole profiles and every name: one profile authorises no pair of name and source that another does not exactly if the other honours each of its selectors from each of its registries |
| `Policy.HonouredMergeNarrows` | core/policy/policy.go:44-62 | under that condition for both parts, the merge accepts only what both accept, whatever the names |
| `Policy.TwoDotsWiden` | core/policy/extensions.go:123-127 | with registry "a.." in both parts the merge accepts an extension from "a" that neither part accepts |
| `Policy.TwoDotsInSelectorWiden` | core/policy/extensions.go:123-160 | with "x@a.." as the one selector of both parts the merge accepts x from "a", which neither part does |
| `PolicyCode.Intersect` | core/policy/policy.go:75-90 | exactly the common strings, once each, sorted |
| `PolicyCode.IntersectHosts` | core/policy/policy.go:92-106 | exactly the common canonical hosts, once each, sorted |
| `PolicyCode.IntersectSelectors` | core/policy/extensions.go:146-191 | exactly the texts of the meetings of two selectors, once each, sorted |
| `PolicyCode.Merge` | core/policy/policy.go:44-73 | the merge of two profiles: the intersections, the smaller budgets, automatic approval only if both, the lineage id |
| `PolicyCode.WorkspaceAllowed` | core/policy/policy.go:239-260 | some scope entry covers the workspace: absolute, literally the root or a non-root path at or above it |
| `Policy.BelowByComponents` | core/policy/policy.go:239-260 | a workspace lies at or below a scope entry exactly if the entry's path components begin the workspace's; a sibling whose name only continues the entry's does not |
| `PolicyCode.NormalizeEgress` | core/policy/extensions.go:106-121 | exactly the canonical hosts, once each, sorted, or refused if one is no host name |
| `PolicyCode.NormalizeExtension` | core/policy/extensions.go:20-41 | accepted exactly if well-formed, with canonical source and egress |
| `PolicyCode.NormalizeAndAuthorize` | core/policy/extensions.go:43-83 | accepted exactly if all declarations are well-formed, different and authorised; the result is their canonical copies in order |
| `PolicyCode.SplitEgress` | core/policy/policy.go:192-213 | granted and denied hosts, each once and sorted, partition the requested ones by the allowlist |
| `PolicyCode.Evaluate` | core/policy/policy.go:158-222 | accepts exactly if depth, workspace, extensions and registries allow it, and then grants exactly the requested hosts that are allowed |
| `Policy.AcceptsMeans` | core/policy/policy.go:158-222 | exactly which requests a profile accepts: by depth, by the components of workspace and scope, and for each extension by version, digest, ends of its name, host names free of delimiters and addresses, its registry, and a selector that is free or bound to it; no two declarations the same |
| `Policy.IdentityTells` | core/policy/extensions.go:43-83 | declarations count as the same exactly if name, version, digest and canonical source agree, whatever the names hold |
| `TurnLoop.ScanMeans` | core/loop/loop.go:111-121 | what the boundary grammar means: as many ends as starts but for what is open, and never more than maxSteps steps in a turn |
| `TurnLoop.ResolveDecisions` | core/loop/hooks.go:85-99 | the first reject wins, else the last rewrite, else the original |
| `TurnLoop.ResolveMeans` | core/loop/hooks.go:85-99 | decisions resolve to the first rejection if there is one, else to the last rewrite, else to the original, said by index |
| `TurnLoop.VerdictsTell` | core/loop/loop.go:341-355 | the verdicts recorded for a set of decisions tell exactly what the decisions resolve to: the last rewrite, or nothing beyond the log before them |
| `TurnLoop.CallTold` | core/loop/loop.go:240-275 | after the attempt and its verdicts the log tells the tool call that is made |
| `TurnLoop.Loop.RunHooks` | core/loop/loop.go:323-356 | a decision that is neither to continue, nor a rewrite that fits, nor a rejection with a reason leaves no record and fails; otherwise, if the log admits it, every verdict is in the log, in order, and the answer is their resolution, the conversation unchanged |
| `TurnLoop.Loop.RunTool` | core/loop/loop.go:233-302 | the attempt recorded first is the encoding of the call asked for, empty arguments as an empty object; a result comes last, no boundary in between; what the tool is asked to do is what the log tells by then; a rejected call is not made and its result is the rejection; else the result is what that very consultation of the tool gave, its error, or its output after the hooks on it, which may withhold or replace it |
| `TurnLoop.Loop.RunCalls` | core/loop/loop.go:219-231 | the calls of a reply, in order and none left out: each has its attempt and its result in the log, and the tools were consulted for exactly those that were not rejected |
| `TurnLoop.Loop.RunStep` | core/loop/loop.go:209-231 | the step that began ends whatever happens inside, and the model was given exactly what the log told; without an error the conversation grew by the reply, with its text and usage, and by an attempt and a result for each call of the reply, in order |
| `TurnLoop.Loop.PrepareStep` | core/loop/loop.go:139-163 | the next request is the one the log tells |
| `TurnLoop.Loop.Stopping` | core/loop/loop.go:173-193 | without an error the turn goes on exactly if some hook rejects or rewrites; without a rejection the last rewrite is then recorded as a user's message, and nothing else is |
| `TurnLoop.Loop.RunTurn` | core/loop/loop.go:122-194 | for every model, tool and hook behaviour, errors and cancellation included: the turn's boundaries nest, it has at most maxSteps steps, it is closed, and all requests given to the model are a function of the log; a turn without an error concluded: what the root span says is the input, then for each step its reply and the exchanges of all its calls, and what the stop hooks injected; with surroundings that never fail a turn fails only at maxSteps or if the log does not replay |
| `Launch.OwnStep` | surfaces/hx/run_production.go:258-349 | every step of a process leaves behind it on disk what its phase says |
| `Launch.OthersStep` | seams/accept/accept.go:140-243 | a process on the same directory touches only what is its own or free |
| `Launch.ActGrows` | seams/accept/accept.go:140-243 | nothing on disk is taken back, but for a log that is deleted |
| `Launch.OneClaimPerKey` | seams/accept/accept.go:140-191 | for any number of processes dying anywhere, hash collisions included, a key has at most one created claim |
| `Launch.OneLaunchPerKey` | surfaces/hx/run_production.go:258-349 | and at most one launch, by the creator, also after the session was deleted; from then on the claim and both markers are durable, session/start is the first record unless the log was deleted since, and claim and log carry the launcher's trace id |
| `Launch.OwnersProceed` | seams/accept/accept.go:140-243 | in every reachable state a process fails only where it meets the claim of another request or a log it did not start; it wins exactly if it meets no claim, and whoever wins is never stopped at a marker |
| `Launch.MarksAreSteps` | seams/accept/accept.go:194-243 | the markers of a process's directory are its own exactly if it took the steps that make them, and durable exactly if it took those that sync them; those who created a claim, and those who launched, are those who took these steps |
| `Launch.DuplicatesDoNotLaunch` | surfaces/hx/run_production.go:538-576 | a repeated request learns the standing claim for its own key and fingerprint and does not launch; it is told that the policy changed exactly if it did, never that the claim is corrupt, unknown only after a deletion, and otherwise the claim's trace, which the log carries, with a launch flag that is true to the marker |
| `Launch.RepliesTell` | surfaces/hx/run_production.go:538-576 | a reply tells what was so when it was given: policy changed exactly if it differs, initialising exactly before the owner's db marker, unknown exactly after it and with no log, else the claim's trace, as launched exactly after the owner's launch marker |
| `Launch.DeletedIsGone` | surfaces/hx/run_production.go:258-349 | a deleted session log stays empty until it is started again |
| `Launch.Registry.TryClaim` | seams/accept/accept.go:140-191 | link and sync if free, else the existing claim or a conflict |
| `Launch.Registry.MarkLaunched` | seams/accept/accept.go:216-243 | succeeds exactly if there is a claim and no launch marker yet |
| `Launch.Registry.Lookup` | seams/accept/accept.go:247-274 | not submitted, conflicting, or the claim with its markers |
| `Launch.Registry.ReplayAcceptance` | surfaces/hx/run_production.go:538-576 | the answer to a repeated request, case by case in the code's order |
| `AuditMatch.EachInOneRow` | core/audit/audit.go:308-347 | every intent and every effect lies in exactly one row |
| `AuditMatch.RowsSound` | core/audit/audit.go:320-329 | matched rows pair an intent and an effect of one group, both deletions or neither |
| `AuditMatch.RowsExactly` | core/audit/audit.go:308-347 | exactly which rows there are: matched, an intent and an effect with the same key and as many earlier ones of that key on either side, both deletions or neither; unobserved, an intent without such an effect; unreported, an effect without such an intent, a clash exactly if an intent has its place |
| `AuditMatch.RowsInOrder` | core/audit/audit.go:308-347 | the rows come by key, then by place; at one place an unobserved intent before an unreported effect |
| `AuditMatch.KeysAgree` | core/audit/audit.go:280-280 | two actions share a key exactly if span and path agree, or one span continues the other's after a NUL and the paths make up for it |
| `AuditMatch.KeyInjective` | core/audit/audit.go:94-97 | among actions whose paths hold no NUL, which canonical paths never do, or whose spans hold none, the key tells span and path apart |
| `AuditMatch.NulConfuses` | core/audit/audit.go:280-280 | with a NUL in a span and in a path, which only paths that are not canonical hold, different spans and paths share a group |
| `AuditMatch.MatchConserves` | core/audit/audit.go:276-347 | when the match succeeds, whatever the actions hold: conservation, matched rows of two deletions or two other changes, and exactly which keys can meet; equal span and path as soon as no path, or no span, holds a NUL |
| `AuditMatch.MatchForgetsOrder` | core/audit/audit.go:276-347 | the outcome, rows and their order included, is the same for every arrangement of either input |
| `AuditMatch.Collect` | core/audit/audit.go:285-300 | fails exactly if two actions share span, path and number; else the groups |
| `AuditMatch.PairSides` | core/audit/audit.go:316-343 | pairing two groups loses nothing and repeats nothing: the intents of the rows are the one group and the effects the other, in order |
| `AuditMatch.Match` | core/audit/audit.go:276-347 | fails as incomplete exactly without net changes and with intents, as ambiguous exactly if an identity repeats; else the rows of all groups in key order |
| `Wire.NumberReadsBack` | core/world/processwire/wire.go:138-143 | big-endian bytes of a number that fits give it back |
| `Wire.BytesReadBack` | core/world/processwire/wire.go:163-180 | the number of any bytes gives the bytes back |
| `Wire.FrameReadsBack` | core/world/processwire/wire.go:125-187 | an encoded valid frame is decoded, whatever follows it |
| `Wire.AcceptedIsEncoding` | core/world/processwire/wire.go:158-187 | whatever is accepted is the encoding of a valid frame with the expected number |
| `Wire.StreamReadsBack` | core/world/processwire/wire.go:125-187 | decoding any encoded list of valid frames gives the list, numbered in turn and past 2^64 from 0 again, and nothing else |
| `Wire.StreamIsEncoding` | core/world/processwire/wire.go:158-187 | re-encoding whatever was accepted reproduces exactly the bytes consumed |
| `Wire.UnfinishedIsInvisible` | core/world/processwire/wire.go:115-149 | a frame is visible only once it is complete: a reader of any frames and a part of another gets exactly the frames |
| `Wire.EncodingIsInjective` | core/world/processwire/wire.go:125-187 | one stream of bytes encodes one list of frames |
| `Wire.ReadableAfterFailure` | core/world/processwire/wire.go:125-149 | after a write that failed, with the encoder going on under the same number: whatever frames come next are read exactly if nothing of the failed frame went out |
| `Wire.WriteFull` | core/world/processwire/wire.go:215-227 | under any pattern of short writes: success means all of the data, failure a prefix of it |
| `Wire.Encoder.Write` | core/world/processwire/wire.go:125-149 | an invalid frame writes nothing; success writes the frame with the next number, which wraps at 2^64; failure leaves part of that frame and the number |
| `Wire.Encoder.WriteAll` | core/world/processwire/wire.go:113-149 | under any pattern of short and failing writes the wire holds exactly the frames that succeeded, numbered in turn, and part of the one that failed |
| `Wire.Decoder.Read` | core/world/processwire/wire.go:158-187 | the read is the value-level decoding that the round trips are about: short input, bad length, partial frame, version, kind, stream and number each end it; a failed read has taken what the code takes |
| `Wire.UnreadAgrees` | core/world/processwire/wire.go:158-187 | what a failed read has left: a whole frame that is refused is taken like one that is accepted, a length that is not allowed is taken alone, an incomplete frame whole |
| `Wire.Decoder.ReadAll` | core/world/processwire/wire.go:158-187 | reading until a read fails gives the frames, the reason and the rest that the round trips are about |
| `Pump.AcceptedStreams` | seams/subagent/subagent.go:314-345 | what acceptance means: ready first and only there, done only at the end |
| `Pump.AcceptedExactly` | seams/subagent/subagent.go:314-345 | and exactly such streams are accepted |
| `Pump.Callback.OnEvent` | seams/subagent/subagent.go:322-382 | the callback accepts exactly that, of lines that meet the contract and whose record went through |
| `Pump.Wait` | seams/subagent/subagent.go:314-411 | a child's result is its done, exactly if every line was accepted and logged, done came, nothing else failed, and the exit was clean unless done says error |
| `CodexParser.Parser.ParseLine` | seams/subagent/codex/parse.go:103-153 | the in-place parser does the step that the stream theorem is about, errors and kept failures included |
| `CodexParser.Parser.TakeItem` | seams/subagent/codex/parse.go:155-264 | commands and file changes open and close their own item, and nothing in manual mode; refusals keep what they must |
| `CodexParser.Parser.CompleteTurn` | seams/subagent/codex/parse.go:266-298 | refused over an open item or bad usage, else usage and an ok done |
| `CodexParser.Parser.Close` | seams/subagent/codex/parse.go:304-327 | the done that closes a stream without one |
| `CodexParser.StreamIsAccepted` | seams/subagent/codex/parse.go:103-334 | for every sequence of lines, in error or not, and the stream's end: accepted by the pump, done if ready was sent; calls and results alternate per id, no ok done over an open call; in manual mode neither calls nor results |
| `CodexParser.StreamTells` | seams/subagent/codex/parse.go:103-334 | for every sequence of lines: a line is taken exactly if nothing went wrong since the thread started and it may follow the lines taken; the events are what those lines say: texts, item ids and the figures of usage as given, and a done with the agent's last words; the end adds a done exactly if the thread started and the turn did not end, stopped exactly over an open item and no failure |
| `CodexParser.FirstBadMeans` | seams/subagent/codex/adapter.go:33-50 | the line at which the adapter stops is the first that may not follow those before it |
| `CodexParser.SentTells` | seams/subagent/codex/adapter.go:33-62 | what the adapter sends, of lines: what the lines in order say; an error done for the first that is not in order, unless it is the first of all; a stopped done at the end exactly over an open item |
| `CodexParser.AdapterStream` | seams/subagent/codex/adapter.go:33-62 | for every sequence of lines: the host accepts what the adapter sends exactly if no line that the scanner takes follows the end of the turn, and else refuses only the last event, a second done; there is a done with every ready, except exactly if the lines stop short of the end of the turn with nothing open, or one before it is too long for the scanner; calls and results alternate |
| `CodexParser.SlipsMean` | seams/subagent/codex/adapter.go:33-62 | when the adapter's output is refused or lacks its done, of lines |
| `CodexParser.AdapterSlips` | seams/subagent/codex/adapter.go:33-62 | lines for which each of the three exceptions happens |
| `CodexParser.RunAdapter` | seams/subagent/codex/adapter.go:33-64 | the loop sends exactly that, and the host at the other end accepts it exactly if no line that the scanner takes follows the end of the turn |
| `ClaudeParser.Parser.ParseLine` | seams/subagent/claudecode/parse.go:242-335 | the in-place parser does the step that the stream theorem is about, errors included |
| `ClaudeParser.Parser.NoteToolResult` | seams/subagent/claudecode/parse.go:518-524 | a call's first result, and no other |
| `ClaudeParser.Parser.TakeUser` | seams/subagent/claudecode/parse.go:464-516 | tool results and confirmed rejections, block by block; a line that fails keeps what it noted but emits nothing |
| `ClaudeParser.Parser.TakeResult` | seams/subagent/claudecode/parse.go:578-614 | refused over an unconfirmed rejection or bad usage, else usage and done |
| `ClaudeParser.StreamIsAccepted` | seams/subagent/claudecode/parse.go:242-614 | for every sequence of lines, in error or not: accepted by the pump, and no call gets two results |
| `ClaudeParser.StreamTells` | seams/subagent/claudecode/parse.go:242-614 | lines in order give exactly what they say: texts and calls block by block, one result per call, denied calls at once and confirmed without another, usage as given, and a done whose status an unanswered upstream error spoils |
| `ClaudeParser.LineTracked` | seams/subagent/claudecode/parse.go:242-614 | after lines in order the next one is taken exactly if it may follow them, said of the lines |
| `ClaudeParser.ClosingIsAccepted` | seams/subagent/claudecode/adapter.go:427-459 | whatever was sent before, the end of a session makes it nothing at all, or ready first and one done, last |
| `ClaudeParser.RunAdapter` | seams/subagent/claudecode/adapter.go:376-460 | for every sequence of lines, failures anywhere and a stop at any time, exactly what is sent and when the session fails: what the lines in order say, up to the event whose handling fails, and the one done, whose status and result are given case by case; of what the session thread sends the host refuses nothing; ready comes first and one done last, or nothing from an adapter that fails; no call gets two results; a stop in time makes the done stopped, or error exactly after a bypass of the approval gate; an ok done means that nothing failed |
| `ApprovalRace.RefusedExactlyWhen` | seams/subagent/claudecode/approval_socket.go:187-241 | at any point of any interleaving of a session and its approval requests: it can still come to a request after done, which the host refuses, exactly if the server is not closed or a request has passed its check and is not written |
| `ApprovalRace.RequestAfterDone` | seams/subagent/claudecode/adapter.go:460-460 | every session that sends anything has a run that ends so |
| `ApprovalRace.OnlyLateRequests` | seams/subagent/subagent.go:322-345 | nothing else is refused: the host accepts the output of a run exactly if every request went out before done |

## Left out

- ProcessOutput.Broker.SendStreamEnd: a wire that has failed stays so; a frame that fails leaves nothing of itself.
- ProcessOutput.Broker.WriteOutput: the same.
- ProcessOutput.Broker.constructor: the length order and the de-duplication of secrets, which no output depends on.
- RedactionCode.RedactIntervalsCovered: the marker is one token; its bytes and the size of a frame are not modelled.
- ExitHandshake: write errors and rejected control requests; the broker's fields are a value that the steps of both threads transform.
- Collector.Walk: byte limits of hashing and of the manifest, and files that change while they are hashed.
- Collector.ScanUpper: the same.
- Collector.Diff: payload and hashing byte limits, cancellation, files that change while they are hashed, and the opaque attribute of the upper root itself, which the code does not read.
- LogWriter.Config: redaction and schema validation are one function that keeps the record's number.
- LogWriter.LoopState.ProcessOne: a store error means that nothing was committed.
- Fork.ForkedLogReplays: assumes that the copied records pass the destination's redaction unchanged, as the design does.
- ApprovalBroker: the rate limit window, socket deadlines and the warning report are steps that may happen at any time, or absent; what an intent registered after the deadline does is only that it is not recorded.
- Coordinator: the reasons of denials and the recorder of results.
- Policy.MergeNarrows: says nothing about exactness of scope and egress, which the code intersects as raw strings.
- TurnLoop.Loop.RunTurn: turn and step ends always commit; records are not altered by redaction; payload schemas are a predicate.
- Launch: deletion of other files than the session's; loss of unsynced directory entries, though what is synced when is part of the state.
- AuditMatch.Match: rows hold the matched actions themselves; the fields copied out of them for display are not modelled, nor is the decoding of events into actions.
- Pump.Callback.OnEvent: what the contract's schemas demand of a line is a parameter.
- CodexParser.StreamTells: a call is its item's id; its name and arguments and the status and output of its result are not modelled.
- ClaudeParser.StreamTells: the same.
- CodexParser.AdapterStream: failures to read other than a line too long, and to write; the events made here always pass the schema.
- CodexParser.RunAdapter: the same, and the task line that comes first.
- ClaudeParser.RunAdapter: a write that fails part way through an event; approval requests are the subject of ApprovalRace.
- ApprovalRace: answers to requests, and writes that fail.
- CodexParser, ClaudeParser: JSON decoding, the texts of synthetic results, and the multi-turn mode of the Claude parser.
- Podman, sockets, process groups, SQLite, HTTP proxying, OTel export, the command line and the log's regular-expression redactor.
- Approval relay server: not modelled.
