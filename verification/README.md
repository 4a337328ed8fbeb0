# Pillbox managed execution: a verified model

Pillbox runs one agent turn per managed invocation. Stateless request handlers race over a D1 database and an R2
bucket, start a sandbox, collect bounded evidence from an OpenCode event stream and commit exactly one terminal result.
This project models that core and proves what it promises of every run and every input.

The model has three transition systems, and loops and pure functions for what feeds them.

- **Managed execution** (`Protocol`, `ProtocolSafety`, `ProtocolTheorems`, `ProtocolProgress`, `ProtocolAnswers`,
  `ProtocolSolo`, `ProtocolStores`). Any number of execute, status, cancel and provision handlers interleave. Every awaited call (a D1 statement, an R2 operation, a runtime call)
  is one atomic step, a handler may crash between any two steps, and the clock moves forward arbitrarily. A run is any
  sequence of actions; each theorem is about all of them. The tables and the bucket are in `Reservations`, `Executions`
  and `Artifacts`, with the SQL triggers of the migrations as part of the insert they belong to.
- **DigitalOcean allocations** (`Allocations`, `Sandboxes`, `SandboxSafety`, `SandboxTheorems`). Executes and cleanups race
  over the allocation row and a provider whose `create` may take effect after its response was lost, after its sender
  crashed, or never.
- **Workspace finalize** (`Finalize`). One claim per session, then a kill, a backup and one terminal update.
- **Request identity** (`Text`, `CanonicalJson`). The canonical printer and a reader that recovers what was printed.
- **The OpenCode turn** (`Sse`, `SseFrames`, `Containers`, `StructuredOutput`, `Mapper`, `Turn`). The stream reader, the container
  scanner, the raw-JSON fallback, the stateful mapper and the retry loop with its event budget.
- **Costs** (`Seal`, `Usage`). The byte count that an artifact records about itself, and the usage fold of the CLI.

The `Log` of a transition system is history kept for the statements only: no step decides anything by it.

Three facts about the code came out of the proofs:

- A turn can append 2001 evidence values: when a raw-JSON fallback is accepted on a full budget of 2000 events, its marker
  is one more. The artifact store refuses more than 2000 events, so that result is never written by its own handler.
  `Turn.EvidenceOverflowsExactly` gives the exact condition, `Turn.FullBudgetFallbackHappens` an input.
- Whether the event-stream reader refuses a text can depend on chunk boundaries: a line longer than 256 KiB that belongs
  to no oversized frame is read when it arrives whole and refused when it is cut. `Sse.CutsAgreeExactly` gives the exact
  condition, `Sse.LongLinesDependOnTheCut` inputs.
- A finalize claim has no lease. A row is left `running` for good exactly when its claimant stops before the terminal
  update, and no request is then ever answered with a snapshot: `Finalize.StuckExactlyWhenAbandoned`,
  `Finalize.CrashAbandonsTheClaim` and `Finalize.NoTakeover`.

## Model

| member | source | states |
|---|---|---|
| ProtocolTheorems.Agreement | cloudflare-spike/src/execution_service.ts:432-506 | In every run, all terminal answers for one invocation carry the same result, cost and artifact ref, and each pages through the evidence of that one artifact. |
| ProtocolTheorems.AnswersAreAuthored | cloudflare-spike/src/execution_service.ts:406-430 | Every terminal answer reports the invocation's one runtime call, a cancellation that was carried out, or an expired lease, with the row's own attribution. A call's error is answered as exactly that error, cancelled or interrupted exactly for those codes and failed otherwise; its output only without an error and with evidence, else the missing-evidence failure. |
| ProtocolTheorems.AnswersFitTheirRequest | cloudflare-spike/src/execution_store.ts:275-284 | A terminal answer goes only to the owner of the row, for the invocation asked about, and to an execute call only if it presented the very request the row was created for. |
| ProtocolTheorems.CompletedAnswersOwnEvidence | cloudflare-spike/src/execution_service.ts:636-678 | Every completed answer refers to a committed artifact with non-empty evidence, and its sequence range is exactly positions 0 to n-1 of that evidence. |
| ProtocolAnswers.AnswersPageAsAsked | cloudflare-spike/src/execution_service.ts:391-404 | Every answer belongs to the call that started its handler: a status call is answered from its own cursor with its own limit, unless its handler committed the row; that one and every execute and cancel call from the start with the first hundred events; and `created` is said exactly to the caller whose claim and commit both won. |
| ProtocolAnswers.FollowedAnswersRebuildEvidence | cloudflare-spike/src/execution_service.ts:909-928 | Successive status answers, each asked for where the one before it left off, concatenate to exactly the committed evidence, whatever the limits. |
| ProtocolAnswers.CancellationsAreAsked | cloudflare-spike/src/execution_service.ts:313-333 | A cancellation on record was asked for, with its reason, by the owner of the row. |
| ProtocolAnswers.RunAnswers | cloudflare-spike/src/execution_service.ts:170-404 | In every reachable state each handler's locals, each win and each answer go back to the call that started the handler. |
| ProtocolTheorems.FirstPutDecides | cloudflare-spike/src/execution_service.ts:469-488 | Once an object exists, whoever commits later (after a crash, a cancel, an expired lease) commits that object and its status, and the object never changes. |
| ProtocolTheorems.TerminalRowsAreFinal | cloudflare-spike/src/execution_store.ts:212-234 | A terminal row never changes again and always names an existing object of matching length and digest. |
| ProtocolTheorems.EffectsAtMostOnce | cloudflare-spike/src/execution_service.ts:479-491 | Per invocation at most one runtime call, one analytics emission and one restore; a call only with an inserted row, an emission only after the terminal commit. |
| ProtocolTheorems.CallsAreReserved | cloudflare-spike/migrations/0004_managed_reservation_ownership.sql:105-120 | The runtime is called only under a ready reservation of the same session, owner, request hash and allowance; a provisioned one was restored first and is never used by the DigitalOcean transport. |
| ProtocolTheorems.AllowanceBoundsCalls | cloudflare-spike/migrations/0004_managed_reservation_ownership.sql:74-87 | The invocations that reach the runtime under the seeded allowance are at most the reserved count, which is at most the limit. |
| ProtocolTheorems.StepDescends | cloudflare-spike/src/execution_service.ts:342-404 | Every step of a handler lowers its rank; a re-read after a lost commit finds a terminal row, so the recursion stops. |
| ProtocolTheorems.HandlersTerminate | cloudflare-spike/src/execution_service.ts:342-430 | Whatever the others do, fifteen of its own steps finish any handler. |
| ProtocolTheorems.RunOk | cloudflare-spike/src/execution_service.ts:170-506 | The protocol invariant (rows, objects, reservations, effect counts, answers and every handler's locals) holds in every reachable state. |
| ProtocolProgress.TrackedHandlersAnswer | cloudflare-spike/src/execution_service.ts:302-340 | A cancel, or a status read after the lease or of a terminal row, has itself given a terminal answer after nine undisturbed steps of its own, in every interleaving. |
| ProtocolStores.ClaimStepsAreTheClaim | cloudflare-spike/src/execution_store.ts:145-199 | The protocol's claim steps, undisturbed, leave the table and take the branch that the store's claim does. |
| ProtocolStores.WriteStepsAreTheWrite | cloudflare-spike/src/execution_artifacts.ts:89-124 | The protocol's put and read, undisturbed, are the store's write: the caller goes on with its own object or the winner's. |
| ProtocolSolo.FreeExecuteCalls | cloudflare-spike/src/execution_service.ts:206-283 | On a free invocation with allowance left, an execute call left alone reserves, claims and makes its one runtime call in five steps, with the claim, lease and attribution of its request. |
| ProtocolSolo.ReservedExecuteCalls | cloudflare-spike/src/managed_reservation.ts:183-202 | Under a matching ready reservation four steps lead an execute call to the runtime. |
| ProtocolSolo.ReservationDecides | cloudflare-spike/src/managed_reservation.ts:299-359 | Which reservation lets an execution go on to its claim, field by field, before and after a lost insert. |
| ProtocolSolo.ReturnedTurnIsAnswered | cloudflare-spike/src/execution_service.ts:406-506 | Left alone, the claimant commits what the runtime returned with its status and cost, emits it once if that was planned, and answers it itself, in five steps. |
| ProtocolSolo.NothingIsRecorded | cloudflare-spike/src/execution_service.ts:342-368 | A stop or reconciliation that throws records nothing, and neither does reading a running row before its lease has run out. |
| ProtocolSolo.ProvisionRestores | cloudflare-spike/src/workspace_transfer.ts:121-191 | A provision left alone claims and starts its one restore. |
| ProtocolSolo.RestoreSettles | cloudflare-spike/src/workspace_transfer.ts:192-219 | The row becomes ready exactly if the restore succeeded, else failed with the transfer's code. |
| ProtocolSolo.NoSandboxFails | cloudflare-spike/src/workspace_transfer.ts:171-182 | Without a sandbox binding the row fails at once and nothing is restored. |
| ProtocolSolo.ProvisionedExecuteMayCall | cloudflare-spike/src/execution_service.ts:241-250 | A ready provision opens the way for exactly the execution it was made for, unless that is a DigitalOcean one. |
| ProtocolSafety.AdvanceOk | cloudflare-spike/src/execution_service.ts:170-506 | Each single step keeps the invariant and leaves intact what every other handler relies on. |
| ProtocolSafety.CommitOk | cloudflare-spike/src/execution_service.ts:478-488 | A won compare-and-set commits the stored object's status; a lost one means the row was already committed. |
| ProtocolSafety.ReadArtifactOk | cloudflare-spike/src/execution_service.ts:391-403 | Reading the artifact of a terminal record never fails and answers with the committed object. |
| Reservations.InsertKeepsValid | cloudflare-spike/migrations/0004_managed_reservation_ownership.sql:57-87 | A reservation insert keeps the allowance counter equal to the reservations under it and within the limit, and each session bound to one owner. |
| Reservations.TransitionKeepsValid | cloudflare-spike/src/managed_reservation.ts:251-279 | Marking a reservation ready or failed keeps the counter and the session owners. |
| Reservations.SeedKeepsValid | cloudflare-spike/migrations/0002_managed_execution_allowance.sql:12-23 | Seeding a new epoch keeps the counter equal to the reservations made under it. |
| Reservations.SeedOpensEpoch | cloudflare-spike/migrations/0002_managed_execution_allowance.sql:12-23 | Seeding takes effect exactly for an epoch under which nothing was reserved, and starts it unspent. |
| Executions.D1ExecutionStore.ClaimInvocation | cloudflare-spike/src/execution_store.ts:145-199 | Created exactly when both unique columns are free and the reservation is ready; reuse only of the exact claim, of its owner; nothing but a creation writes. |
| Executions.D1ExecutionStore.FinishInvocation | cloudflare-spike/src/execution_store.ts:212-234 | Wins exactly when the row is still running under the same identity, changes only that row, and can never win twice. |
| Artifacts.Bucket.Write | cloudflare-spike/src/execution_artifacts.ts:60-125 | Rejects exactly what exceeds a limit; otherwise the first body stays and the caller ends up holding the one object at the key, its own or the winner's. |
| Artifacts.PagesRebuildEvidence | cloudflare-spike/src/execution_service.ts:909-928 | Following `next` from any cursor with any limits of at least 1 terminates and rebuilds exactly the evidence from there on. |
| Artifacts.WholeEvidence | cloudflare-spike/src/execution_service.ts:909-928 | Following `next` from 0 rebuilds the whole evidence. |
| SandboxTheorems.DeletedIsTruthful | cloudflare-spike/src/digitalocean_runtime.ts:153-174 | In every run a row that is `deleted` means, then and ever after, that no sandbox was or will be created, or that the only one took effect and was removed. |
| SandboxTheorems.TombstoneStays | cloudflare-spike/src/digitalocean_allocations.ts:62-71 | A stop that precedes the reserve fences every later reserve. |
| SandboxTheorems.EffectsAtMostOnce | cloudflare-spike/src/digitalocean_runtime.ts:43-146 | Per invocation at most one provider create and one guest launch over all runs, each sent by the handler that reserved it. |
| SandboxTheorems.PhasesMoveForward | cloudflare-spike/src/digitalocean_allocations.ts:52-77 | Allocation state only moves forward through creating, ready, stopping, deleted. |
| SandboxTheorems.CallsAreBounded | cloudflare-spike/src/digitalocean_runtime.ts:101-145 | One execute makes at most 30 readiness gets, 135 polls and 136 allocation reads. |
| SandboxTheorems.CleanupCleans | cloudflare-spike/src/digitalocean_runtime.ts:153-174 | Once the sandbox has materialised, a cleanup whose five steps are not disturbed and whose listing shows it ends with the row deleted and the sandbox gone, in every interleaving. |
| SandboxTheorems.NoLaunchAfterStop | cloudflare-spike/src/digitalocean_runtime.ts:120-130 | A guest that was not launched before its invocation was stopped is never launched afterwards, in every run. |
| SandboxTheorems.LaunchesExactlyOnReady | cloudflare-spike/src/digitalocean_runtime.ts:120-132 | The check before the launch goes on exactly if the row is ready, and the launch is counted for its sender. |
| SandboxTheorems.NoPollAfterStop | cloudflare-spike/src/digitalocean_runtime.ts:134-142 | Once its row is stopped, a handler that stands before its next poll sends none any more. |
| SandboxTheorems.ExecutesEndInCleanup | cloudflare-spike/src/digitalocean_runtime.ts:53-84 | Whatever its calls return, an execute that has reserved turns to the cleanup of its own invocation; it never just stops. |
| SandboxTheorems.HandlersTerminate | cloudflare-spike/src/digitalocean_runtime.ts:43-174 | Whatever the others do, 315 of its own steps finish any execute or cleanup. |
| SandboxTheorems.ExecuteSendsCreate | cloudflare-spike/src/digitalocean_runtime.ts:48-91 | On a free invocation an execute reserves the row and sends its create. |
| SandboxTheorems.ExecuteLaunches | cloudflare-spike/src/digitalocean_runtime.ts:91-142 | Once the create has taken effect and is answered, the sandbox is attached, the guest launched and polled. |
| SandboxTheorems.ExecuteCleansUp | cloudflare-spike/src/digitalocean_runtime.ts:142-174 | After a poll that returns the result the row is deleted and the sandbox removed. |
| SandboxTheorems.WaitsUntilReady | cloudflare-spike/src/digitalocean_runtime.ts:99-110 | A sandbox that is not ready is asked again, up to thirty times while there is time. |
| SandboxTheorems.PendingPollsGoOn | cloudflare-spike/src/digitalocean_runtime.ts:134-145 | A pending poll is followed by the next, up to the limit, and then by the cleanup. |
| SandboxTheorems.PollDecides | cloudflare-spike/src/digitalocean_runtime.ts:137-143 | Only a pending result is polled again. |
| SandboxTheorems.StopFences | cloudflare-spike/src/digitalocean_runtime.ts:155-159 | A stop leaves the row stopping or deleted, and ends at once only on a deleted one. |
| Allocations.D1DigitalOceanAllocations.ReserveAllocation | cloudflare-spike/src/digitalocean_allocations.ts:37-44 | Reserves exactly when there is no row, tombstone included; an existing row is untouched. |
| Allocations.D1DigitalOceanAllocations.AttachSession | cloudflare-spike/src/digitalocean_allocations.ts:52-61 | Keeps the provider identity on every row not deleted, never undoes a stop, and succeeds exactly on creating or ready. |
| Allocations.D1DigitalOceanAllocations.StopAllocation | cloudflare-spike/src/digitalocean_allocations.ts:62-71 | Leaves the row stopping or deleted with its session kept, and writes a tombstone where there was no row. |
| Allocations.D1DigitalOceanAllocations.DeleteAllocation | cloudflare-spike/src/digitalocean_allocations.ts:72-77 | Moves an existing row to deleted and nothing else. |
| Finalize.KillAndBackupOnce | cloudflare-spike/src/workspace_transfer.ts:296-310 | In every run a session's kill and backup each happen under at most one claim. |
| Finalize.CompletedResponsesAgree | cloudflare-spike/src/workspace_transfer.ts:311-370 | Every completed response, first or replayed, carries the snapshot made by the one backup and recorded in the row. |
| Finalize.SettledRowsAreFinal | cloudflare-spike/src/workspace_finalize.ts:132-178 | A completed or failed finalize row never changes again. |
| Finalize.NoTakeover | cloudflare-spike/src/workspace_transfer.ts:297-298 | Once the claimant has stopped the row stays as it is, and a row left running never yields a snapshot. |
| Finalize.StuckExactlyWhenAbandoned | cloudflare-spike/src/workspace_transfer.ts:296-339 | A running row of a reachable state can never be settled if and only if its claimant has stopped. |
| Finalize.ClaimantSettles | cloudflare-spike/src/workspace_transfer.ts:296-339 | A claimant that does not crash settles its row within five steps of its own, in every interleaving and whatever its calls return. |
| Finalize.SmoothClaimantCompletes | cloudflare-spike/src/workspace_transfer.ts:299-325 | A claimant whose calls all return settles its row as completed with its backup's snapshot, and answers it. |
| Finalize.ReplaysTheSnapshot | cloudflare-spike/src/workspace_transfer.ts:342-370 | An exact retry and a status call of a completed session answer with the recorded snapshot, without a kill or a backup. |
| Finalize.FirstRequestClaims | cloudflare-spike/src/workspace_transfer.ts:281-293 | A first request for a session with an owner claims it. |
| Finalize.OwnersAreFinal | cloudflare-spike/migrations/0004_managed_reservation_ownership.sql:13-17 | The owner of a session, once bound, never changes. |
| Finalize.CrashAbandonsTheClaim | cloudflare-spike/src/workspace_transfer.ts:282-298 | A crash right after the claim reaches such a row, for every session and owner. |
| Finalize.ClaimStepsAreTheClaim | cloudflare-spike/src/workspace_finalize.ts:70-107 | The two steps of a claim, undisturbed, take the branch that the store's claim does. |
| Finalize.D1WorkspaceFinalizeStore.ClaimFinalize | cloudflare-spike/src/workspace_finalize.ts:70-107 | Only the first claim of a session creates; an exact retry gets the row back, another request conflicts, another owner cannot read it. |
| Finalize.D1WorkspaceFinalizeStore.CompleteFinalize | cloudflare-spike/src/workspace_finalize.ts:132-153 | Completes exactly a row still running under the same identity and owner, once. |
| Finalize.D1WorkspaceFinalizeStore.FailFinalize | cloudflare-spike/src/workspace_finalize.ts:155-178 | Fails exactly a row still running under the same identity and owner, once. |
| CanonicalJson.CanonicalIsIdentity | cloudflare-spike/src/codex_execution.ts:654-671 | Two JSON values print to the same string if and only if they are equal with objects taken as maps. |
| CanonicalJson.ValueReads | cloudflare-spike/src/codex_execution.ts:654-667 | The printed form, followed by anything that cannot extend it, reads back as the value's meaning. |
| CanonicalJson.SameMeaningPrintsSame | cloudflare-spike/src/workspace_finalize.ts:218-226 | Values that mean the same print alike, whatever the order of their keys at every depth. |
| CanonicalJson.StringReads | cloudflare-spike/src/codex_execution.ts:655-657 | Every escaped string, lone surrogates included, reads back up to its closing quote. |
| CanonicalJson.KeysAscend | cloudflare-spike/src/codex_execution.ts:663-671 | An object prints its fields in ascending code-unit order of their keys, each once. |
| CanonicalJson.PlainPrintsItself | cloudflare-spike/src/codex_execution.ts:655-657 | A string without quotes, backslashes, control characters and lone surrogates is printed as it is. |
| CanonicalJson.EscapeTable | cloudflare-spike/src/codex_execution.ts:655-657 | How each unit that must be escaped is written: its short form, else four lower-case hex digits. |
| CanonicalJson.PrintedLiterals | cloudflare-spike/src/codex_execution.ts:655-667 | The literals and the punctuation of arrays and objects, as text. |
| Text.SortedKeysUnique | cloudflare-spike/src/codex_execution.ts:663-671 | Sorting by code units is canonical: two sorted lists over the same keys list them alike. |
| Text.LessIsFirstDifference | cloudflare-spike/src/codex_execution.ts:669-671 | One string precedes another exactly if it is a proper prefix of it or smaller at the first difference. |
| Sse.SseEnvelopes | cloudflare-spike/src/opencode_turn.ts:516-583 | Fails exactly when a frame outgrows the limit or the stream as cut exceeds one; within the limits it yields what the concatenated text means. |
| Sse.DrainLines | cloudflare-spike/src/opencode_turn.ts:539-561 | Takes every finished line off the buffer, leaves the unfinished one, and parses as the line-by-line reading does. |
| SseFrames.FramesReadBack | cloudflare-spike/src/opencode_turn.ts:539-575 | Frames written with or without the space, with LF or CRLF, are read back as exactly the parses of their joined data, in order; other lines change nothing, a last frame without its blank line is yielded, an unfinished line is dropped. |
| SseFrames.ReadFrames | cloudflare-spike/src/opencode_turn.ts:516-583 | The reader yields those frames however the text is cut within the limits. |
| Sse.ReadBothCuts | cloudflare-spike/src/opencode_turn.ts:525-568 | Two cuts of one text, within the limits, yield the same envelopes and the same failure, even with CRLF or `data:` split. |
| Sse.AnyCutFits | cloudflare-spike/src/opencode_turn.ts:531-566 | If the text's own lines and length fit, every way of cutting it fits. |
| Sse.CutsAgreeExactly | cloudflare-spike/src/opencode_turn.ts:531-566 | Whether the reader fails is independent of the cut if and only if the text's lines fit, one of its frames is beyond the limit, or its unfinished last line is. |
| Sse.LongLinesDependOnTheCut | cloudflare-spike/src/opencode_turn.ts:562-566 | Every long line that is no `data:` line is read when it arrives whole and refused when its end is cut off. |
| Containers.JsonContainers | cloudflare-spike/src/structured_output.ts:122-168 | The indexed loop finds exactly what the one-unit-at-a-time scanner finds. |
| Containers.FindsExactly | cloudflare-spike/src/structured_output.ts:122-168 | Balanced containers amid prose without openers are found, all of them, in order, and nothing else. |
| Containers.FindsOnlyBalanced | cloudflare-spike/src/structured_output.ts:122-168 | On any text, everything found is bracket-balanced outside strings, and the finds stand in the text in order without overlap. |
| StructuredOutput.FindsSerialisedValues | cloudflare-spike/src/structured_output.ts:122-168 | Serialised arrays and objects, with any layout of white space, interleaved with prose are found exactly. |
| StructuredOutput.AcceptedIsValid | cloudflare-spike/src/structured_output.ts:29-111 | An accepted output serialises a value that the validator passed and that was parsed from the whole text or from a balanced container in it. |
| StructuredOutput.SoleValidValueIsAccepted | cloudflare-spike/src/structured_output.ts:69-91 | Of serialised containers amid prose, the fallback accepts exactly when one is schema-valid, and returns that one. |
| StructuredOutput.SerialisedValueVerdict | cloudflare-spike/src/structured_output.ts:69-110 | A serialised value, whatever its layout and the white space around it, is accepted as its serialisation exactly if the validator passes it, a schema violation exactly if not, an invalid schema exactly if the schema does not compile or throws. |
| StructuredOutput.FencedValueVerdict | cloudflare-spike/src/structured_output.ts:50-110 | The same for a value in a code fence, labelled `json` or not. |
| StructuredOutput.RejectionReasons | cloudflare-spike/src/structured_output.ts:33-109 | Each reason for a rejection, exactly. |
| StructuredOutput.StringifyReads | cloudflare-spike/src/structured_output.ts:78-110 | An accepted output reads back as the value it stands for. |
| StructuredOutput.Utf8Adds | cloudflare-spike/src/structured_output.ts:40-43 | Byte lengths add up wherever a text is not cut inside a surrogate pair. |
| StructuredOutput.Utf8Units | cloudflare-spike/src/structured_output.ts:40-43 | One to three bytes for a unit on its own, four for a surrogate pair. |
| StructuredOutput.FenceIsTransparent | cloudflare-spike/src/structured_output.ts:50-51 | Wrapping any text that is neither blank nor already fenced in a code fence, labelled `json` or not, does not change the verdict, within the size limit. |
| StructuredOutput.TrimKeepsFinds | cloudflare-spike/src/structured_output.ts:36-36 | Trimming does not change which containers are found. |
| StructuredOutput.MissingIsBlank | cloudflare-spike/src/structured_output.ts:33-39 | Text counts as missing exactly when it is absent or all white space. |
| Mapper.OpencodeMapper.OnEvent | cloudflare-spike/src/opencode_mapper.ts:121-156 | The field updates and payloads of each event are those of the step function that the stream theorems are about. |
| Mapper.OpencodeMapper.PlainTextOutput | cloudflare-spike/src/opencode_mapper.ts:169-175 | The backward loop returns the text of the last part that has any. |
| Mapper.EndNamesLatestStart | cloudflare-spike/src/opencode_mapper.ts:133-143 | For every event sequence each message_end names the latest message_start, with no start or end in between. |
| Mapper.MessagesTracked | cloudflare-spike/src/opencode_mapper.ts:180-202 | The open message is the one the emitted payloads leave open, and a start never repeats the open message. |
| Mapper.EvidenceIsCarried | cloudflare-spike/src/opencode_mapper.ts:121-290 | Every payload in the evidence comes from an event that says the same: its message, text, tool name and status, counters, reason. |
| Mapper.EventsSpeak | cloudflare-spike/src/opencode_mapper.ts:121-156 | A thought, every stop, the end of the open message and the start of a new one are always said. |
| Mapper.DeltasCarryTheText | cloudflare-spike/src/opencode_mapper.ts:180-222 | The deltas emitted for a message are, in order and whole, the text that arrived for it, its structured value once. |
| Mapper.StructuredResult | cloudflare-spike/src/opencode_mapper.ts:190-199 | The structured result is the last value that was not a repeat for its message. |
| Mapper.EditExactly | cloudflare-spike/src/opencode_mapper.ts:206-254 | Which text part each event edits, and how. |
| Mapper.ToolStatusesChange | cloudflare-spike/src/opencode_mapper.ts:257-277 | The statuses emitted for a call are the reported ones without repeats: neighbours differ and the last is current. |
| Mapper.UsageOncePerStep | cloudflare-spike/src/opencode_mapper.ts:281-290 | An identified step's usage is emitted by its first report that has any, and by no later one. |
| Mapper.UsageExactly | cloudflare-spike/src/opencode_mapper.ts:58-77 | A step reports usage exactly if it has token fields and one of them, or a cost, is present. |
| Mapper.UnnamedStepsAlwaysReport | cloudflare-spike/src/opencode_mapper.ts:281-290 | A step without an identifier is reported every time. |
| Mapper.PlainTextIsLastAnswer | cloudflare-spike/src/opencode_mapper.ts:206-254 | The part order lists the parts with text once each, by first edit; the plain text is the last replacement plus later deltas of the last non-empty part. |
| Mapper.RetryOnlyAfterCleanIdle | cloudflare-spike/src/opencode_mapper.ts:162-167 | Retry is allowed if and only if the last stop signal was a clean idle and no structured value was seen. |
| Turn.DriveAttempt | cloudflare-spike/src/opencode_turn.ts:314-365 | The stream loop's appends and result are the mapper's output for the events consumed, cut to the budget, ended by the first attention, full budget, deadline or stream end. |
| Turn.AppendPayloads | cloudflare-spike/src/opencode_turn.ts:330-340 | One event's payloads are kept while the budget lasts; the attempt is done exactly on attention or a full budget. |
| Turn.DriveTurn | cloudflare-spike/src/opencode_turn.ts:57-129 | The retry loop computes the turn that the budget and decision theorems are about. |
| Turn.TurnBudget | cloudflare-spike/src/opencode_turn.ts:71-129 | Payloads, errors and retry markers never exceed 2000, attempts never exceed retry_count + 1, appends never exceed 2001, and the last one is reached exactly by a fallback on a full budget. |
| Turn.AttemptBudget | cloudflare-spike/src/opencode_turn.ts:314-353 | An attempt appends at most its budget, its own error included, and a failed attempt allows no retry. |
| Turn.StopMeans | cloudflare-spike/src/opencode_turn.ts:317-352 | An attempt stops at the first event that raises attention or fills the budget or passes the deadline, or at the end of the stream, and fails exactly on the deadline or a rejected stream. |
| Turn.AttemptMeans | cloudflare-spike/src/opencode_turn.ts:314-365 | An attempt hands over the mapper's payloads for the events consumed, as many as the budget allows, then its error if it failed, and else returns what the mapper knows. |
| Turn.FirstUsableAttemptDecides | cloudflare-spike/src/opencode_turn.ts:74-128 | The first attempt that is not retried decides the turn: by its structured value, else by its text if the inspection accepts it, else by giving up; there is one retry marker per retried attempt. |
| Turn.RetriedExactly | cloudflare-spike/src/opencode_turn.ts:113-120 | When another attempt follows, condition by condition. |
| Turn.NoMarkerAfter | cloudflare-spike/src/opencode_turn.ts:113-127 | No retry marker follows an attempt after which the deadline has passed, the budget is full, no retry is left or the model did not go idle cleanly. |
| Turn.FallbackIsValid | cloudflare-spike/src/opencode_turn.ts:91-105 | A turn that ends in the fallback marker returns the serialisation of a schema-valid value. |
| Turn.EvidenceOverflowsExactly | cloudflare-spike/src/execution_artifacts.ts:61-65 | The evidence exceeds the artifact's event limit, so that it cannot be written, if and only if an attempt reached by retries alone yields no structured value and fills the budget with a text that the fallback accepts. |
| Turn.FullBudgetFallbackHappens | cloudflare-spike/src/opencode_turn.ts:98-105 | A structured request with two retries whose turn makes 2001 appends, and no artifact that holds them is writable. |
| Seal.SealArtifactCostBytes | cloudflare-spike/src/run_cost.ts:146-157 | From any starting count up to 2^53-1 and for any artifact, sealing succeeds within 4 of its 8 attempts and the field equals the exact body length; nothing else changes. |
| Seal.RestsAfterThree | cloudflare-spike/src/run_cost.ts:151-156 | The iteration size = constant + digits(size) is at rest after three measurements for every constant. |
| Seal.DecimalReadsBack | cloudflare-spike/src/run_cost.ts:152-153 | The printed count is the count, in digits without a leading zero. |
| Seal.FourAttemptsAreNeeded | cloudflare-spike/src/run_cost.ts:151-156 | The bound is tight: 98 constant bytes need all four attempts. |
| Seal.MeterSaturates | cloudflare-spike/src/run_cost.ts:202-204 | A counter holds the exact sum of what was observed until it saturates, then stays saturated. |
| Usage.UsageByMessage | src/cost.rs:40-53 | The loop over the log computes the fold that the selection theorems are about. |
| Usage.KeepsFirstOfHighestRank | src/cost.rs:37-53 | Per message the kept observation is the first one of highest source rank, and there is one exactly if the message was observed. |
| Usage.NativeThenWire | src/cost.rs:238-244 | A native observation is kept over any wire one and a wire one over any unspecified one, whatever the order of arrival; of one source the first is kept. |
| Usage.RedeliveryChangesNothing | src/cost.rs:37-53 | Redelivering any events already in the log, in any order, changes nothing. |
| Usage.InterleavingDoesNotMatter | src/cost.rs:40-53 | Logs that interleave the same per-message histories differently fold to the same map. |
| Usage.ObservedFromEvents | src/cost.rs:18-34 | Nothing exactly without observations; a counter is known exactly if every kept observation has it and the sum fits, and is then that sum. |
| Usage.CheckedTotal | src/cost.rs:23-27 | The checked fold of one counter is the exact sum or unknown. |
| Usage.SaturatingTotals | src/cost.rs:177-198 | The saturating totals are the exact sums, capped at u64::MAX. |
| Usage.RunCostFromEvents | src/cost.rs:136-223 | The last managed envelope wins, and one that does not decode hides an earlier one; otherwise status and saturated totals of the log. |
| Usage.StatusIsLastEnd | src/cost.rs:141-146 | The status is that of the last event that ends the run. |
| Usage.ManagedIsLast | src/cost.rs:160-165 | The managed envelope is that of the last run-cost event, decoded or not. |
| Usage.SnapshotAndEnvelope | src/cost.rs:18-203 | Without a managed envelope a known checked total equals the saturating total, and a counter unknown only by overflow is saturated. |

## Left out

- Signatures, capabilities, owner digests and currentness checks: an authorised handler starts with its owner.
- SHA-256 is taken to be injective: a digest is represented by what it digests (a request hash by the whole request, an artifact digest by the artifact, a finalize identity by its session and request digest).
- Request validation, admission and unsupported-request answers before the reservation: they answer without touching any store.
- The bodies of non-terminal, conflict, not-found and provision answers: a handler that gives one is simply done; only terminal answers are recorded.
- Dates and row timestamps other than the lease and the clock, and the usage counters observed by the stores.
- A D1 or R2 call that takes effect but throws is the call followed by a crash, because the service then gives up the request; where the code catches the error (finalize, provider calls) the two outcomes are separate steps.
- The two AFTER INSERT triggers of the reservation table are applied in one fixed order; which of two simultaneous violations is reported is not modelled.
- The provider's `find` may miss or return a matching sandbox; names are unique per invocation; the wire format and the guest scripts are not modelled.
- The decoded turn of the DigitalOcean guest and the cleanup-pending answer: the runtime call returns an arbitrary turn in the protocol.
- CanonicalJson.CanonicalIsIdentity: a number stands by the token that `JSON.stringify` prints for it; the limits on nodes, depth and cycles in `assertJsonValue` are not modelled.
- Sse.SseEnvelopes: starts from decoded text with a byte length per chunk, so UTF-8 decoding across chunks is not modelled; an idle timeout is a rejected stream in `Turn`.
- StructuredOutput.AcceptedIsValid: `JSON.parse` and the JSON Schema validator are parameters of the inspection; rejection reasons are modelled, their detail texts are not.
- Mapper.OpencodeMapper.OnEvent: events of the wrong wire type in fields the code does not check, such as a numeric message id, are not modelled.
- Turn.DriveTurn: the sink's own byte limits, which throw out of the turn, are not modelled; the boot of the OpenCode server is ready or not.
- Usage.RunCostFromEvents: dollar amounts, `validate_untrusted` and the fallback cost from custom usage events are not modelled: floating point beside the token counters.
- Seal.SealArtifactCostBytes: an artifact without a cost envelope, which sealing returns unchanged, is not modelled.
- The CLI, the docker wrapper, doctor, prompts, registries, configuration and scripts: they wrap other tools or make single decisions, apart from the managed path.
