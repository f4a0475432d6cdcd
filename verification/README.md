# Reaper's app server, modelled and verified

This project models the parts of Reaper's app server whose guarantees span several calls, and
proves them for every run: how a thread's events are logged, replayed and turned into a
transcript; how turns and tool approvals proceed while users, timers and connections come and
go; the queues and permits in between; and the smaller cores around it (skill files and their
globs, the memory store, the browser sweep and lease, artifact windows).

JavaScript runs each synchronous stretch between two awaits to its end. A model here is a state
and one function per such stretch; a run is any sequence of them, and the theorems hold after
every run. Where the source keeps state in an object, a class with the same fields has one
method per stretch, proved to do exactly what the function says. The functions are what the
lemmas are about.

`dafny verify dfyconfig.toml` checks everything.

## Modules

| file | what it holds |
|---|---|
| `Transcript`, `TranscriptOrder`, `TranscriptMeaning`, `OutputCap`, `ItemIds` | one turn's items, where they stand and what they hold, the output cap, item ids as text |
| `SessionProjection`, `SessionMeaning`, `Hydration` | the projection of a whole thread, what it holds and tells, and history read into it |
| `ClientParity` | the browser's fold of the notifications, compared with the server's transcript |
| `EventBus`, `Delivery`, `ProjectionCache`, `FanOut` | the bounded replay log, one subscription, the memoized answers all clients share, and the machine of all three |
| `ManagedThread`, `OutgoingRouter`, `ApprovalProtocol` | turns, requests to reviewers, and an approval's way through thread, processor and router |
| `Semaphore`, `Connection` | permits for running turns, and a connection's two queues |
| `Regex`, `Globs`, `SkillLoader`, `ConditionalSkills` | regular expressions, globs and the two compilers between them |
| `SkillAuthor`, `SkillReading` | SKILL.md, printed and parsed, and what the parser makes of text of any origin |
| `MemoryStore`, `CdpHealth`, `ControlLease`, `Artifacts` | the memory store, the browser sweep, the control lease, artifact windows |
| `Events`, `Strings`, `Wrappers` | shared data and text helpers |

The connection that is shown an approval and answers it is called its reviewer, as in the source.

## Hypotheses

- Approval ids, request ids and semaphore tickets are unique in a run; tool call ids do not
  begin with `<turnId>:`, and no client names a turn as history's are named
  (`history-turn-<n>`).
- A sequence number always names the same record of a thread. The processor never clears a
  thread's projection and cache, so the model is of one bus: a thread that is dropped or
  deleted and then resumed under its id starts a new bus at 1, and is not covered.
- Saving a thread's metadata and writing the memory files succeeds, and metadata saves do not
  overlap in effect.
- Event objects are not changed after they were published.
- The JSON printer and parser are inverse on records, print one line, and redaction is
  idempotent. They, the clock, the network and the browser are parameters.
- A `char` stands for a UTF-16 code unit that is no surrogate; characters beyond U+FFFF count
  as one where the program counts two units. Numbers stay within JavaScript's safe integers.

## What turned out otherwise than documented

- `ClientShowsTheTranscript`: a client agrees with the server exactly when the turn is synced.
  It is not between the opening user message, which is not announced, and the next
  `turn.started` or announced end of that turn.
- `LostOutputShows`: live output of a tool call with an empty id is kept by the server and
  dropped by the client, until that call is announced again.
- `OnePublishInTheGapCountsTwice`: a replay ring of at most 2000 events does not keep the
  projection cache complete. With a full ring, one publish delivered to another client between
  taking and sending a replay pushes the replay's first record out of the cache; it is then
  folded twice and its tokens counted twice. `EachRecordFoldsOnceIfFew` says exactly when the
  cache suffices, and `ReplayAndGapBoundIt` what that takes: the replay and the records
  published before it is sent number at most 2000 together.
- `ReplayFromZero`: a replay from offset 0 never says it is truncated, although it is whenever
  records have been evicted.
- `SpinningWritesNothing`, `SpinningIsReachable`: a socket that stops being open before the
  connection is closed makes the writer of a non-empty queue restart itself without progress.
- `PlaceholderByAccident`, `QuestionMarkIsAQuantifier`: the conditional-skills compiler breaks
  on some patterns that hold the word of its placeholders (`ChainGivesTokens` says on which),
  and reads `?` as a quantifier.
- `AgreementAfterUpdate`, `TornLineLosesARecord`: the memory store's file falls behind its list
  when a patch changes a record's scope, and loses a record when it appends after a torn line.
- `RenamedRecordStays`: a transient memory whose id was patched survives the forgetting of its
  tag and is counted as forgotten. `TagIsForgotten` and `CountIsRight` say exactly when both
  are right; ids that are all the records' keys suffice, but `SwappedRecordsGo` shows they need
  not be.
- `RefusedStartLosesTheOwner`: a request to start a turn that already runs takes over its
  approvals, and its refusal leaves them without a reviewer. `OwnerExactly` and
  `StarterIsAsked` say exactly when the starter is still the one who is asked.
- `AdmittedAfterForgetting`: forgetting a thread restarts its generations, so a stale browser
  action can be admitted again.
- `ClockSetBackSkipsProbes`: with a clock that is set back, a page can be found hung without
  being probed again. `ReportedOnWhatWasAsked` says exactly when it has had all its probes.
  `ProbeHearsItsOwn`: an evaluation answered with an error counts as no answer.
- `NoValidationIsEverRead`: no file gives a skill its validation commands, neither in the
  documented form nor as the printer writes them: the parser never puts a list inside a map.
- `CommentCutsTheList`: a comment among the items of an indented list ends it, and the items
  below are lost. `DocumentIsRead` says what ends a block.
- `EmptyContentShowsALine`: an empty artifact counts no lines and shows one.

## Model

| member | source | states |
|---|---|---|
| OutputCap.CapAbsorbs | src/app-server/session-projection.ts:163-170 | capping, appending and capping again is capping the whole once: the marker of an earlier cut is cut off again before any real text is |
| OutputCap.AccumulateIsCapOfWhole | src/app-server/session-projection.ts:328-337 | capping chunk by chunk gives the cap of the full concatenation, for every list of chunks |
| OutputCap.CapCongruence | src/app-server/session-projection.ts:166-170 | two texts that look alike capped still do after the same chunk is appended to both |
| OutputCap.CapKeepsTheEnd | src/app-server/session-projection.ts:163-170 | up to 262144 characters are kept as they are; a longer text keeps its end behind the marker, and comes to exactly that length |
| TranscriptOrder.StepAdvances | src/app-server/session-projection.ts:222-447 | every event keeps item keys unique, user-message ordinals dense and all places fixed; a new item goes last |
| TranscriptOrder.RunKeepsPlaces | src/app-server/session-projection.ts:608-611 | over any list of a turn's events no item ever moves |
| TranscriptOrder.UserMessageAppends | src/app-server/session-projection.ts:222-244 | a user message is always a new last item under an ordinal never used |
| TranscriptOrder.ProseFollowsItsTool | src/app-server/session-projection.ts:598-606 | after a tool started with no message open, and whatever other events, the next prose gets a key never used and stands after that tool |
| TranscriptOrder.OpenMessageKeepsItsItem | src/app-server/session-projection.ts:260-274 | a message still open continues its own item across a tool call, with the text appended |
| TranscriptMeaning.CallStarts | src/app-server/session-projection.ts:317-327 | a call that starts is filed in progress, as a command, a file change or another tool by its name and changes, with its arguments |
| TranscriptMeaning.CallCompletes | src/app-server/session-projection.ts:874-910 | a completed call shows as completed if its result has `ok: true` and as failed if not, with its output, exit code, changes, duration, result and error; the same item is told |
| TranscriptMeaning.CallFails | src/app-server/session-projection.ts:393-399 | a failed call shows as failed, another tool with the message as well; the same item is told |
| TranscriptMeaning.LastWordStands | src/app-server/session-projection.ts:386-399 | whatever else happens in the turn, a call goes on showing what its last completion or failure made of it |
| TranscriptMeaning.OutputArrives | src/app-server/session-projection.ts:328-361 | a chunk adds to a command's output or to another tool's live lines, standard error to the error lines, and is told; any other call ignores it |
| TranscriptMeaning.CommandShowsItsChunks | src/app-server/session-projection.ts:328-337 | over any run a command shows its chunks joined, up to the cap |
| TranscriptMeaning.LinesGrow | src/app-server/session-projection.ts:349-357 | a chunk joins the last line if that is of its kind and open, and else starts one; the newest 400 lines stay |
| TranscriptMeaning.LinesSayTheirChunks | src/app-server/session-projection.ts:348-357 | over any run the lines of a kind say the end of their stream, and all of it while there are fewer than 400 |
| TranscriptMeaning.LiveCallGrows | src/app-server/session-projection.ts:347-357 | over any run of other events those are the lines the call shows |
| TranscriptMeaning.MessageGrows | src/app-server/session-projection.ts:260-274 | a piece is appended to the message of its step, or starts it, and is told |
| TranscriptMeaning.MessageCloses | src/app-server/session-projection.ts:275-289 | a completed message holds exactly its text, or what was streamed if that is empty |
| TranscriptMeaning.StreamedMessage | src/app-server/session-projection.ts:260-289 | a message streamed in pieces with anything in between and then completed with an empty text holds all its pieces |
| TranscriptMeaning.ThoughtGrows | src/app-server/session-projection.ts:290-303 | a piece of reasoning is added to that of its step, or starts it, and is told |
| TranscriptMeaning.ThoughtCloses | src/app-server/session-projection.ts:304-316 | completed reasoning holds exactly its text, or its pieces if that is empty |
| TranscriptMeaning.UserMessageTold | src/app-server/session-projection.ts:222-244 | a user message is a new last item with its text, told unless it is the first |
| TranscriptMeaning.ContextAddsUp | src/app-server/session-projection.ts:401-447 | the savings of a technique add up over the turn, its status is that of the phase, the rest the latest report's |
| TranscriptMeaning.TurnBegins | src/app-server/session-projection.ts:247-259 | the start of a turn tells every item it holds as started and completed, in order |
| TranscriptMeaning.TurnEnds | src/app-server/session-projection.ts:621-628 | completed, aborted and failed turns end as done, interrupted and broken, with the message of a failure; an end that says nothing new is not told |
| TranscriptMeaning.LastBoundaryDecides | src/app-server/session-projection.ts:448-453 | over any run a turn's status is what its last boundary says |
| TranscriptMeaning.LastFailureIsShown | src/app-server/session-projection.ts:621-628 | over any run its error is the message of the last failure that had one |
| ItemIds.RenderInjective | src/app-server/session-projection.ts:154-156 | the id strings tell items apart, so tables by string and by structured key behave alike |
| ItemIds.PrefixTestFindsUserMessages | src/app-server/session-projection.ts:231-234 | the prefix test that numbers user messages matches exactly the user messages |
| ItemIds.RenderedAs | src/app-server/session-projection.ts:154-156 | the first item of a kind has the bare name, later ones carry their number |
| SessionProjection.OnlyThreadStartedIsUnstable | src/app-server/session-projection.ts:662-664 | only thread.started depends on live metadata, it alone is not replay-stable, and it changes no state |
| SessionProjection.RunKeepsTurnOrder | src/app-server/session-projection.ts:578-591 | after any run each turn is listed once, in order of first appearance |
| SessionProjection.SessionProjection.Project | src/app-server/session-projection.ts:202-526 | the projection object does to its turns and totals, and answers, what the fold does that the SessionMeaning and TranscriptMeaning rows describe |
| SessionProjection.SessionProjection.Hydrate | src/app-server/session-projection.ts:528-560 | the loops and the rebuilt map leave exactly the state that SessionMeaning.HistoryIsTakenOver describes |
| SessionProjection.HydrationKeepsLiveTurns | src/app-server/session-projection.ts:546-559 | history goes in front: live turns keep their contents and their order at the end |
| SessionProjection.HydrationIsIdempotent | src/app-server/session-projection.ts:528-560 | hydrating the same history again changes nothing |
| SessionMeaning.TurnIsItsEvents | src/app-server/session-projection.ts:578-591 | after any run a turn is what its own events, in order, make of an empty one |
| SessionMeaning.RecordIsTold | src/app-server/session-projection.ts:202-526 | what each record tells, under its own turn and sequence |
| SessionMeaning.UsageAddsUp | src/app-server/session-projection.ts:454-460 | after any run the totals are the sums of the tokens reported |
| SessionMeaning.LatestIsHeld | src/app-server/session-projection.ts:506-516 | after any run plan, to-do list and verdict are those of the latest report; a verification that only started changes none |
| SessionMeaning.HistoryIsTakenOver | src/app-server/session-projection.ts:528-560 | a history turn is taken over if and only if neither its id nor its opening text is that of a live turn or of one taken before; those taken stand first, as history has them |
| Hydration.LiveTurnsAreUntouched | src/app-server/message-processor.ts:834-843 | however often and whenever history is read, the live turns are what the records alone make them, last and in their order |
| Hydration.ReadingHistoryTellsNothing | src/app-server/message-processor.ts:862-863 | a record is answered with the same notifications whether or not history was read before |
| Hydration.SnapshotIsHistoryThenLive | src/app-server/session-projection.ts:562-591 | a snapshot shows turns no record was about, and then exactly what it would show had no history been read |
| Hydration.ReadingTakesOver | src/app-server/message-processor.ts:834-843 | at any point of a run, reading history takes over exactly the turns that are not there yet |
| Hydration.TurnStays | src/app-server/message-processor.ts:834-843 | a turn stays as it is until a record is about it, however often history is read |
| ClientParity.StepAgrees | web/shared/src/thread-store.ts:262-390 | folding an event's notifications keeps the client's turn in agreement with the server's, for every event but the silent opening; output of a nameless tool call is lost until that call or the turn is announced whole |
| ClientParity.LostOutputShows | web/shared/src/thread-store.ts:352-358 | output of a tool call with an empty id is dropped by the client, which shows, unless the chunk changes nothing in the server's own capped lines |
| ClientParity.AppendLiveAgrees | web/shared/src/thread-store.ts:352-390 | live sandbox lines, capped on the client only, look alike once capped |
| ClientParity.ClientShowsTheTranscript | src/app-server/session-projection.ts:202-447 | after any run the client holds the server's items in the server's order if and only if the turn is synced, the lines of a nameless tool call aside; those too if none of them is lost; status and token totals always agree |
| ClientParity.SnapshotIsWhatClientsHold | src/app-server/session-projection.ts:562-591 | a snapshot lists each turn some record was about, once, with the status clients show and, exactly if the turn is synced, the items they show |
| ClientParity.OpenedThenStartedIsSynced | src/app-server/session-projection.ts:238-259 | a turn whose opening message is followed by its start is synced for good |
| ClientParity.UnknownItemsStart | web/shared/src/thread-store.ts:301-358 | a chunk for an item the client does not hold starts it, but live output is dropped |
| ClientParity.HighestIsRemembered | web/shared/src/thread-store.ts:177-179 | after any notifications the client remembers the highest sequence it was told |
| ClientParity.LastTotalsAreShown | web/shared/src/thread-store.ts:235-236 | and the totals it was told last |
| EventBus.ThreadEventBus.Publish | src/app-server/event-bus.ts:113-165 | keeps the retained records the longest suffix of all published ones that fits both bounds, and their bytes counted |
| EventBus.Evicted | src/app-server/event-bus.ts:140-151 | the eviction loop stops at that longest suffix with an exact byte count; the clamp at zero never acts |
| EventBus.EventByteSize | src/app-server/event-bus.ts:42-59 | the recursive walk of the source computes the estimate that EventBus.SizeIsTheTextCarried describes |
| EventBus.SizeIsTheTextCarried | src/app-server/event-bus.ts:42-59 | a record is estimated at 200 and one for each character of all strings, keys not counted, under text, content, delta, result, error and message |
| EventBus.RetainedTextIsBounded | src/app-server/event-bus.ts:140-151 | a bus that keeps several records keeps their text, and 200 for each, within `maxReplayBytes`; a record is gone only because the count was full or the bound would have been passed |
| EventBus.ReplayIsWhatIsKept | src/app-server/event-bus.ts:177-190 | a replay has exactly the retained records numbered above the offset, in order, and says which are retained; a negative or unsafe offset counts as 0 |
| EventBus.ThreadEventBus.ReplayAfter | src/app-server/event-bus.ts:177-190 | a replay is the retained part of the history after the offset |
| EventBus.TruncatedMeansIncomplete | src/app-server/event-bus.ts:180-189 | for an offset in range, truncated is raised exactly when a published record after it is missing |
| EventBus.ReplayFromZero | src/app-server/event-bus.ts:188 | from offset 0 truncated is never raised, and the replay is complete exactly when nothing was evicted |
| Delivery.Subscription.OnEvent | src/app-server/message-processor.ts:868-874 | stays in step with bus and subscription: once live, what has been sent is the history from the first record on, the new record last |
| Delivery.Subscription.Flush | src/app-server/message-processor.ts:877-881 | after it, what has been sent is the history from the first record on, however much was published since the replay was taken |
| Delivery.DeliveryIsGapFree | src/app-server/message-processor.ts:858-895 | under every interleaving of publishes with registration and flush a client is sent one contiguous run of sequences, and the filter on the buffer drops nothing |
| Delivery.WhereDeliveryStarts | src/app-server/thread-manager.ts:543-548 | the run starts right after the offset, at the oldest retained record, or at the next one |
| ProjectionCache.ThreadGateway.SendThreadEvent | src/app-server/message-processor.ts:897-930 | looks the answer up or projects, remembers and trims, as the specification says |
| ProjectionCache.Trimmed | src/app-server/message-processor.ts:920-924 | the trimming loop leaves the newest 2000 entries |
| ProjectionCache.NewestStay | src/app-server/message-processor.ts:903-925 | a cached answer is given again; a new one that is stable joins the newest 2000 |
| ProjectionCache.AnswersNeverChange | src/app-server/message-processor.ts:911-919 | whoever is sent a record, and whenever, gets the notifications it got first; only thread.started is recomputed |
| ProjectionCache.LateClientsCatchUp | src/app-server/message-processor.ts:877-881 | a client sent the records late holds what one present from the start holds |
| FanOut.EachRecordFoldsOnceIfHeld | src/app-server/message-processor.ts:858-926 | over every run of a bus, any number of subscriptions and the cache, the projection is given each record once if and only if every record a flush sends again is sent while fewer than 2000 stable records have gone out for the first time since it did; then its state is one fold |
| FanOut.EachRecordFoldsOnceIfFew | src/app-server/message-processor.ts:858-926 | when records first go out in order, that is so if and only if at every flush that repeats a record the stable records sent since the subscription's start number at most 2000 |
| FanOut.ReplayAndGapBoundIt | src/app-server/event-bus.ts:140-151 | the stable records sent since an open subscription's start number at most its replay and what was published since it was taken, and exactly that many when all of it has gone out and none was thread.started |
| FanOut.LiveClientKeepsOrder | src/app-server/message-processor.ts:868-881 | while a client is live that was sent everything from its start on, flushes that start no earlier keep the order |
| FanOut.LiveClientsAgree | src/app-server/message-processor.ts:858-930 | in such a run every live client that was there for the oldest record sent has been sent the history without a gap, and shows each synced turn as the server's one projection holds it |
| FanOut.TotalsTell | src/app-server/session-projection.ts:454-460 | for a thread of usage reports the totals are right if and only if each report was folded once |
| FanOut.OnePublishInTheGapCountsTwice | src/app-server/message-processor.ts:920-924 | a run of the configured ring of 2000: one report published between taking a replay and sending it, and the totals come out too high |
| ManagedThread.ManagedReaperThread.StartTurn | src/app-server/managed-thread.ts:133-179 | refuses blank prompts, closed threads and a second turn, else accepts and queues the save |
| ManagedThread.StartIsTaken | src/app-server/managed-thread.ts:133-179 | a blank prompt, a closed thread and a running turn refuse a start, in this order, and nothing changes; any other start is taken and queued to be saved |
| ManagedThread.ManagedReaperThread.CancelPendingApprovals | src/app-server/managed-thread.ts:429-433 | the loop settles every waiting approval and nothing else |
| ManagedThread.ManagedReaperThread.RunnerSettles | src/app-server/managed-thread.ts:491-601 | ends the turn with its verdict, cancels what waits and queues the terminal event |
| ManagedThread.VerdictMeaning | src/app-server/managed-thread.ts:491-565 | completed if and only if the runner returned unaborted with no stopping blocker; aborted if and only if interrupted or an AbortError; a fault always fails the turn with its message |
| ManagedThread.FirstAbortDecides | src/app-server/managed-thread.ts:478-507 | in any run, the first abort of a turn fixes the outcome the turn will have |
| ManagedThread.InterruptReaches | src/app-server/managed-thread.ts:198-209 | an interrupt of the running turn, by its id or without one, settles every waiting approval as cancelled, aborts the turn unless it was aborted, and is published; any other changes nothing |
| ManagedThread.InterruptedTurnAborts | src/app-server/managed-thread.ts:198-209 | in every run a turn interrupted before any other abort ends as aborted, waits on nothing meanwhile, and what waited stays cancelled |
| ManagedThread.FaultReaches | src/app-server/managed-thread.ts:478-492 | a run fault aborts the turn with its message, unless it was aborted |
| ManagedThread.FaultedTurnFails | src/app-server/managed-thread.ts:478-507 | in every run a turn whose first abort is a fault ends as failed with its message |
| ManagedThread.RunnerReports | src/app-server/managed-thread.ts:491-601 | ends the turn with what its abort says, or the runner's message, its first stopping blocker or its error, cancels what waits and queues the save |
| ManagedThread.UndisturbedTurnReports | src/app-server/managed-thread.ts:491-567 | in every run a turn nobody aborts ends, if it does, with what its runner reported |
| ManagedThread.ApprovalWaits | src/app-server/managed-thread.ts:364-394 | an approval waits exactly if a turn runs unaborted and its own signal is not aborted, and settles once as decided |
| ManagedThread.SaveBringsAbout | src/app-server/managed-thread.ts:179-184 | what is published once a save is written, and that a turn starts to execute then |
| ManagedThread.TurnsRunOneAtATime | src/app-server/managed-thread.ts:133-209 | in any run every accepted turn is announced and then ended exactly once, before the next; starts in between are refused; without a turn nothing waits |
| ManagedThread.WaitsStayInOrder | src/app-server/managed-thread.ts:364-433 | every step keeps waiting approvals those of the active turn, never both waiting and settled, and none after an interrupt |
| ManagedThread.RunStaysSound | src/app-server/managed-thread.ts:378-394 | in any run settlements are final, and a waiting approval keeps its turn or gets settled |
| OutgoingRouter.AppServerOutgoingRouter.Resolve | src/app-server/outgoing-router.ts:85-92 | accepts a response only from the connection the request went to |
| OutgoingRouter.AppServerOutgoingRouter.Remove | src/app-server/outgoing-router.ts:22-30 | the loop rejects exactly the requests of that connection |
| OutgoingRouter.ResponseIsLater | src/app-server/outgoing-router.ts:85-92 | a response ends a request once, for good, and only for its own connection |
| OutgoingRouter.RemovalIsLater | src/app-server/outgoing-router.ts:22-30 | a disconnect rejects all its requests and no ended one again |
| OutgoingRouter.RequestWaits | src/app-server/outgoing-router.ts:54-83 | a request waits on its connection if and only if that is there and takes the message, and is rejected with the cause if not |
| OutgoingRouter.TimeOutRejects | src/app-server/outgoing-router.ts:64-68 | a request that still waits is rejected as timed out |
| OutgoingRouter.ResponseEnds | src/app-server/outgoing-router.ts:85-92 | a response of the connection asked resolves the request with its answer, any other changes nothing |
| OutgoingRouter.RemovalRejects | src/app-server/outgoing-router.ts:22-30 | a disconnect rejects what the connection was asked, and nothing else |
| OutgoingRouter.ShutdownRejects | src/app-server/outgoing-router.ts:94-102 | the shutdown rejects every request |
| OutgoingRouter.FirstEndCounts | src/app-server/outgoing-router.ts:22-102 | over every run a request ends by the first response of its connection, time-out, disconnect or shutdown, as that says, and waits if there is none |
| ApprovalProtocol.ApprovalDesk.AskReviewer | src/app-server/message-processor.ts:219-239 | routes an approval to the owner of the turn at that moment, or has it cancelled |
| ApprovalProtocol.ApprovalDesk.ReplyArrived | src/app-server/message-processor.ts:240-248 | takes the prompt off the desk and reads the reviewer's word as ApprovalProtocol.WakeReads says |
| ApprovalProtocol.ApprovalDesk.TellThread | src/app-server/message-processor.ts:255-259 | settles the approval, or falls back to cancelling once if that throws |
| ApprovalProtocol.StepSound | src/app-server/message-processor.ts:219-278 | every step of thread, router, processor and reviewers keeps the invariant linking their tables |
| ApprovalProtocol.SettledForGood | src/app-server/managed-thread.ts:379-393 | in any run a settled approval keeps its decision, late answers among what may follow |
| ApprovalProtocol.OnlyTheReviewerApproves | src/app-server/message-processor.ts:241-255 | in any run an approval is granted only if the connection it was routed to answered "accept", "acceptForSession" or "approved" while the thread was waiting, and denied only if it answered "decline" or "denied" |
| ApprovalProtocol.RoutedToTheOwner | src/app-server/message-processor.ts:220-239 | an approval is routed once, to the connection that owns its turn when it is asked for |
| ApprovalProtocol.TimelyAnswersCount | src/app-server/message-processor.ts:226-255 | after any run an answer in time settles the approval word by word: those three as approved, those two as denied, and any other word, an error or a malformed answer as cancelled |
| ApprovalProtocol.WakeReads | src/app-server/message-processor.ts:240-248 | what the handler makes of each word, of an error, of an answer the schema does not know and of a rejection |
| ApprovalProtocol.TellSettles | src/app-server/message-processor.ts:255-259 | telling the thread settles a waiting approval as decided and takes its prompt away; if it throws, the handler tries once more, to cancel |
| ApprovalProtocol.AskGoesToTheOwner | src/app-server/message-processor.ts:219-239 | an approval is cancelled at once without a turn that waits, to be cancelled without an owner, and else routed to the owner, on whose screen it is if the message was taken |
| ApprovalProtocol.StartGoesOn | src/app-server/message-processor.ts:798-803 | a request to start a turn owns it at once, and is refused for a blank prompt, on a closed thread and while a turn runs |
| ApprovalProtocol.StartIsDoneWith | src/app-server/message-processor.ts:804-815 | its refusal takes the turn from whoever owns it, its end only from the connection it came from |
| ApprovalProtocol.ForeignAnswersChangeNothing | src/app-server/outgoing-router.ts:85-92 | a response from another connection, or to a request that has ended, can be put into any run at any point or left out, and the run ends the same |
| ApprovalProtocol.ApprovalDesk.StartReachesThread | src/app-server/message-processor.ts:798-803 | takes the thread's answer to a request to start a turn, which already owns it |
| ApprovalProtocol.OwnerExactly | src/app-server/message-processor.ts:798-815 | after any run a connection owns a turn if and only if some request of its own to start the turn claimed it, and since then no other connection has asked to start it, no request to has been refused, its own has not ended and it has not disconnected |
| ApprovalProtocol.StarterIsAsked | src/app-server/message-processor.ts:219-230 | while a turn runs some request started it, and that request's connection is shown the next approval if and only if its claim has stood since it last asked |
| ApprovalProtocol.RefusedStartLosesTheOwner | src/app-server/message-processor.ts:812-816 | a second request to start the running turn, by anybody, is refused by the thread and leaves the turn without an owner: its next approval is cancelled and shown to nobody |
| ApprovalProtocol.NothingIsLeftWaiting | src/app-server/managed-thread.ts:575-578 | when no turn runs every approval asked for is settled and no prompt is outstanding |
| ApprovalProtocol.PromptsAreLive | src/app-server/message-processor.ts:268-278 | a prompt is outstanding only while the active turn waits on it, with the reviewer it was routed to |
| Semaphore.PermitsAreConserved | src/app-server/thread-manager.ts:623-679 | in any run the permits in use are the unreleased ones and at most the limit, nobody waits while one is free, and an aborted ticket never holds one |
| Semaphore.DoubleReleaseIsHarmless | src/app-server/thread-manager.ts:663-668 | releasing twice changes nothing |
| Semaphore.WaitersAreServedInOrder | src/app-server/thread-manager.ts:642-677 | of two waiters the later gets a permit only after the earlier had its own or gave up |
| Semaphore.AcquireGetsOrWaits | src/app-server/thread-manager.ts:642-660 | a call gets a permit at once while fewer than the limit are held, waits last if not, and is turned away if its signal has aborted |
| Semaphore.ReleaseHandsOver | src/app-server/thread-manager.ts:663-677 | a permit given back goes to the first who waits, and is free if nobody does |
| Semaphore.AbortTurnsAway | src/app-server/thread-manager.ts:652-656 | an abort takes exactly its waiter out of the queue and turns it away |
| Semaphore.NobodyIsLost | src/app-server/thread-manager.ts:642-677 | over any run whoever asked has had a permit, waits, or was turned away by an abort of its own signal |
| Semaphore.WaiterGetsItsTurn | src/app-server/thread-manager.ts:663-677 | a waiter holds a permit once as many have been given back as waiters stand before it, and one more |
| Semaphore.AsyncSemaphore.Abort | src/app-server/thread-manager.ts:652-656 | splices exactly the aborted waiter out of the queue |
| Semaphore.AtMostLimitRun | src/app-server/thread-manager.ts:569-571 | over every course of turns that enter, wait, are cancelled, run and finish, at most `limit` run at once, each under a permit it has not given back |
| Connection.AppServerConnection.SendJson | src/app-server/connection.ts:81-100 | accepts, refuses or closes within both bounds and starts the writer |
| Connection.AppServerConnection.ReceiveMessage | src/app-server/connection.ts:126-156 | admits a message or answers why not |
| Connection.AppServerConnection.HandlerReturned | src/app-server/connection.ts:158-175 | goes on with the next message or rests |
| Connection.SendIsTaken | src/app-server/connection.ts:81-100 | a message is accepted if and only if the socket is open and both bounds leave room, and written at once if no write is in progress; one without room closes the connection |
| Connection.MessageIsTaken | src/app-server/connection.ts:126-156 | a text message within the limit that parses is admitted while the queue has room, and handled at once if no handler is at work; any other is answered, and an oversized one closes |
| Connection.HandlerGoesOn | src/app-server/connection.ts:158-175 | a handler that returns makes way for the next message, one that throws is answered for first |
| Connection.WriterGoesOn | src/app-server/connection.ts:177-202 | a write that is done makes way for the next, one that fails closes the connection |
| Connection.LifeAndDeath | src/app-server/connection.ts:102-124 | what a beat, a pong, a close and the socket's own close change |
| Connection.HandlersWorkOff | src/app-server/connection.ts:158-175 | as handlers return, every message admitted is handled |
| Connection.WritesWorkOff | src/app-server/connection.ts:177-202 | as writes succeed, everything accepted is written |
| Connection.MessagesAreHandledInOrder | src/app-server/connection.ts:126-175 | in any run one handler at a time takes the admitted messages in order, each once; when it rests unclosed all have been |
| Connection.WritesAreInOrder | src/app-server/connection.ts:81-202 | in any run the writes are a prefix of what was accepted, queued bytes are exact and bounded, and an open connection at rest has written all |
| Connection.ClosedIsQuiet | src/app-server/connection.ts:116-124 | after a close nothing more is handled or written |
| Connection.SpinningWritesNothing | src/app-server/connection.ts:181-201 | in any run of a connection whose socket stopped being open before it was closed, nothing more is accepted or written, and a writer that was starting over does so until the close, its queue as it was |
| Connection.SpinningIsReachable | src/app-server/connection.ts:181-200 | two sends and a closing peer lead there |
| Connection.SilenceIsCutOff | src/app-server/connection.ts:102-114 | whatever happens between two beats, the second closes a connection still unclosed if and only if no pong came in between |
| Globs.CompiledMeaning | src/adaptive/skill-loader.ts:72-88 | the regular expression text of a list of glob tokens, read back by the grammar, accepts exactly the one-line strings a recursive matcher of those tokens does |
| Globs.TextReadBack | src/adaptive/skill-loader.ts:85 | escaping makes the text parse back as one piece per token |
| SkillLoader.Compile | src/adaptive/skill-loader.ts:69-91 | the index loop builds the text of the glob's tokens |
| SkillLoader.GlobCache.GlobToRegExp | src/adaptive/skill-loader.ts:57-71 | a cached pattern equals a fresh compilation |
| SkillLoader.GlobCache.ShouldIgnore | src/adaptive/skill-loader.ts:93-116 | ignores a path if and only if one of the patterns does |
| SkillLoader.PatternMeaning | src/adaptive/skill-loader.ts:60-91 | a compiled ignore pattern accepts exactly what its glob matches |
| SkillLoader.IgnoringMeansMatching | src/adaptive/skill-loader.ts:105-113 | an anchored pattern takes the whole path or what is below it, any other a path with a matching segment; the separate test of the base name adds nothing |
| SkillLoader.CoreStrips | src/adaptive/skill-loader.ts:97-103 | a negation and an empty line say nothing; of any other one slash at the end and then one `./` at the start are dropped |
| SkillLoader.GlobIsRead | src/adaptive/skill-loader.ts:69-88 | the tokens a glob is read as: two stars cross slashes, one star and `?` do not |
| ConditionalSkills.ChainGivesTokens | src/adaptive/conditional-skills.ts:21-32 | the chain of replacements gives the regular expression of the pattern's tokens if and only if, read from the left, they complete no placeholder that was not inserted |
| ConditionalSkills.WordAloneIsHarmless | src/adaptive/conditional-skills.ts:26-30 | a pattern with neither two colons nor two stars together completes none, whatever words it holds |
| ConditionalSkills.CompiledAsMeant | src/adaptive/conditional-skills.ts:21-32 | where none is completed and there is no `?`, the compiled pattern accepts exactly what its tokens match |
| ConditionalSkills.MeantIfUnquestioned | src/adaptive/conditional-skills.ts:21-32 | among one-line patterns that complete no placeholder, exactly those without `?` compile to a regular expression that accepts what their tokens match, over every one-line path |
| ConditionalSkills.PlaceholderByAccident | src/adaptive/conditional-skills.ts:26-30 | a pattern without any placeholder in it that the chain miscompiles |
| ConditionalSkills.QuestionMarkIsAQuantifier | src/adaptive/conditional-skills.ts:23 | `?` is left unescaped and acts as a quantifier, unlike in the loader |
| ConditionalSkills.CompilersCompared | src/adaptive/conditional-skills.ts:21-32 | the two compilers agree on patterns without `**/`, and on the others this one accepts all the loader's does |
| ConditionalSkills.DirectoriesMayBeNone | src/adaptive/conditional-skills.ts:24-29 | a leading `**/` matches no directory here, and not in the loader |
| SkillAuthor.SerializeSkill | src/adaptive/skill-author.ts:369-401 | pushes the lines of the frontmatter and body in order |
| SkillAuthor.ParseSimpleYaml | src/adaptive/skill-author.ts:66-133 | the index loops end on every input and compute the line-by-line reading that SkillReading.DocumentIsRead describes for text |
| SkillAuthor.PlainExactly | src/adaptive/skill-author.ts:72-77 | a printed text is read back as itself if and only if it is a plain scalar |
| SkillAuthor.ListingReadBack | src/adaptive/skill-author.ts:108-110 | a printed list of plain items is read back item by item |
| SkillAuthor.FileReadBack | src/adaptive/skill-author.ts:43-52 | frontmatter and body are split where they were joined, whatever the body holds |
| SkillAuthor.SkillRoundTrip | src/adaptive/skill-author.ts:197-244 | a writable skill comes back from its file with every field as it was |
| SkillReading.DocumentIsRead | src/adaptive/skill-author.ts:66-133 | every document of blank lines, comments, keys with a value and keys with rows below them is read part by part; rows go on to the next line no deeper than their key or of no form, and any item among them makes a list |
| SkillReading.BlockListIsRead | src/adaptive/skill-author.ts:80-106 | a key with items below it reads as the list of their values, in order, blank lines passed over; an item with a colon stays text |
| SkillReading.CommentCutsTheList | src/adaptive/skill-author.ts:83-104 | a comment among the items ends the list, and those below it are lost |
| SkillReading.WordsAreRead | src/adaptive/skill-author.ts:135-139 | the words for true, false and null, and the empty text |
| SkillReading.NumeralIsRead | src/adaptive/skill-author.ts:140 | a numeral with or without a minus reads as its number |
| SkillReading.FractionIsRead | src/adaptive/skill-author.ts:141 | a decimal fraction reads as one |
| SkillReading.QuotedIsRead | src/adaptive/skill-author.ts:142-144 | a text in quotes reads as what is between them |
| SkillReading.OtherIsText | src/adaptive/skill-author.ts:135-146 | anything of none of these forms stays a text |
| SkillReading.InlineListIsRead | src/adaptive/skill-author.ts:108-110 | a list in brackets reads as the texts between its commas, without space and quotes around them |
| SkillReading.InlineMapIsRead | src/adaptive/skill-author.ts:111-127 | a map in braces reads as the scalars given to its keys, the last of two for one key; pieces without a colon are passed over |
| SkillReading.FileIsSplit | src/adaptive/skill-author.ts:43-52 | a file is split at the first line break with three dashes behind it, with or without carriage returns, and one of another form is none |
| SkillReading.LinesAreBroken | src/adaptive/skill-author.ts:67 | the frontmatter is split at line breaks, a carriage return before one dropped |
| SkillReading.SkillNeeds | src/adaptive/skill-author.ts:160-173 | a file is a skill if and only if it has a name and a description, and a known type and scope if any |
| SkillReading.SkillTakesTexts | src/adaptive/skill-author.ts:203-223 | each text comes from its key, with its default |
| SkillReading.SkillTakesTheRest | src/adaptive/skill-author.ts:209-222 | the newer switch counts if it is there; lists, policy, body and version |
| SkillReading.IntegerIsTaken | src/adaptive/skill-author.ts:220 | the version is the integer its text begins with |
| SkillReading.NoIntegerOtherwise | src/adaptive/skill-author.ts:220 | and no other text has one |
| SkillReading.SaidAsText | src/adaptive/skill-author.ts:206-223 | how a value is said as a text |
| SkillReading.PrintedLineByLine | src/adaptive/skill-author.ts:369-401 | what the printer writes, line by line |
| SkillReading.NoValidationIsEverRead | src/adaptive/skill-author.ts:246-260 | no file whatsoever gives a skill validation commands |
| CdpHealth.LimitedMap.WorkerDone | src/browser/cdp-health.ts:257-262 | stores a result at its index and takes the next item |
| CdpHealth.EveryItemOnce | src/browser/cdp-health.ts:254-265 | under every interleaving items are started in order, each at most once and at most `limit` at a time; at rest without failure every result stands at its index |
| CdpHealth.RunsEnd | src/browser/cdp-health.ts:258-261 | no run goes on for ever |
| CdpHealth.FirstWordCounts | src/browser/cdp-health.ts:124-207 | whatever replies arrive and timers fire, in whatever order, a command comes to the first word about it and to nothing else after |
| CdpHealth.ProbeHearsItsOwn | src/browser/cdp-health.ts:226-251 | among any other traffic a probe says no answer if and only if the first word about its attach was a session and the first about its evaluation was the timer or an error; without a session it evaluates nothing |
| CdpHealth.Retest | src/browser/cdp-health.ts:312-321 | the retry loop stops at the deadline or the first sign of life, having made the probes counted |
| CdpHealth.FindUnresponsive | src/browser/cdp-health.ts:310-324 | the second pass reports exactly the suspects found hung, in order |
| CdpHealth.HungInOrder | src/browser/cdp-health.ts:308-322 | the targets found are listed once each, in order |
| CdpHealth.ReportedMeansSilent | src/browser/cdp-health.ts:314-321 | with a monotone clock a target is reported if and only if all its probes failed and the deadline has not passed |
| CdpHealth.ReportedOnWhatWasAsked | src/browser/cdp-health.ts:310-322 | with any clock a target is reported if and only if each probe made of it failed and the last look at the clock was in time; it had all its probes if and only if every look was |
| CdpHealth.ClockSetBackSkipsProbes | src/browser/cdp-health.ts:314-321 | with a clock late at the first look and set back by the last, a suspect is reported that was not probed again at all |
| CdpHealth.ConnectWithRecovery | src/browser/cdp-health.ts:408-441 | connects once, or after a failure closes each target found hung, in order and no other, and connects once more |
| MemoryStore.PersistentMemoryStore.constructor | src/adaptive/persistent-memory-store.ts:40-83 | each list is what loading its file gives |
| MemoryStore.PersistentMemoryStore.RememberRecord | src/adaptive/persistent-memory-store.ts:96-137 | refuses secrets, stores sensitive content redacted, appends to list and file |
| MemoryStore.PersistentMemoryStore.UpdateRecord | src/adaptive/persistent-memory-store.ts:140-156 | patches the first record found, redacts again and rewrites the file of its scope |
| MemoryStore.PersistentMemoryStore.ForgetRecord | src/adaptive/persistent-memory-store.ts:158-169 | removes the first record with the id |
| MemoryStore.PersistentMemoryStore.ForgetByTag | src/adaptive/persistent-memory-store.ts:171-187 | strikes the tagged records out, the transient ones under the ids they carry, and returns the listed records removed plus the transient ones tagged |
| MemoryStore.RememberedIsKept | src/adaptive/persistent-memory-store.ts:96-137 | a secret is refused, a transient record kept under its id, and any other is the last of its list and the last line of its file, redacted if sensitive |
| MemoryStore.UpdateChangesTheFirst | src/adaptive/persistent-memory-store.ts:140-156 | the first record with the id, project before user before machine, is changed as the patch says and redacted, and the file of its scope rewritten; one that is not editable is left alone |
| MemoryStore.UpdateOtherwise | src/adaptive/persistent-memory-store.ts:140-156 | if no list has the id, the same for the transient record |
| MemoryStore.ForgetTakesTheFirst | src/adaptive/persistent-memory-store.ts:158-169 | the first record with the id goes from list and file, and no other |
| MemoryStore.ForgetOtherwise | src/adaptive/persistent-memory-store.ts:158-169 | if no list has the id, the transient record goes |
| MemoryStore.LoadedInOrder | src/adaptive/persistent-memory-store.ts:73-82 | a file loads as the records of its lines that parse, in order, sensitive ones redacted |
| MemoryStore.TagIsForgotten | src/adaptive/persistent-memory-store.ts:174-185 | a listed record is kept if and only if it does not carry the tag; so is a transient one if and only if the ids the tagged ones carry are the keys they are kept under |
| MemoryStore.CountIsRight | src/adaptive/persistent-memory-store.ts:180-186 | the count returned is the number of records removed if and only if the ids of the tagged transient records are distinct and each a key |
| MemoryStore.KeysStayIds | src/adaptive/persistent-memory-store.ts:96-169 | transient records stay under their own ids over any operations whose patches leave ids alone |
| MemoryStore.KeyedTagIsForgotten | src/adaptive/persistent-memory-store.ts:171-187 | while they do, forgetting a tag removes exactly the records that carry it and returns their number |
| MemoryStore.RenamedRecordStays | src/adaptive/persistent-memory-store.ts:144-182 | a transient record renamed by an update keeps its key, survives the forgetting of its tag, and is counted as removed |
| MemoryStore.OpenedIsSound | src/adaptive/persistent-memory-store.ts:58-83 | a store just opened is sound if and only if each file ends its last line and holds records of its own scope |
| MemoryStore.RebuiltLoads | src/adaptive/persistent-memory-store.ts:287-289 | a rewritten file loads as the records it was written from, an empty list included |
| MemoryStore.LoadAppended | src/adaptive/persistent-memory-store.ts:282-285 | an appended line adds its record to what a well-ended file loads |
| MemoryStore.FilesFollowLists | src/adaptive/persistent-memory-store.ts:58-187 | after any operations whose patches leave scopes alone, loading the files gives the lists, in order and redacted |
| MemoryStore.AgreementAfterUpdate | src/adaptive/persistent-memory-store.ts:144-154 | an update that changes a listed record keeps list and file in agreement if and only if its scope stays |
| MemoryStore.TornLineLosesARecord | src/adaptive/persistent-memory-store.ts:282-285 | an append after a line that was not ended never loads as both records |
| ControlLease.AdmittedIfUntouched | src/browser/control-lease.ts:176-183 | an action carrying its generation is admitted if and only if the agent held the browser then and no handoff happened since |
| ControlLease.GenerationCountsHandoffs | src/browser/control-lease.ts:142-167 | the generation grows by one with every handoff and by nothing else |
| ControlLease.ThreadsAreIndependent | src/browser/control-lease.ts:122-132 | a thread's lease is what its own steps alone would make it |
| ControlLease.AdmittedAfterForgetting | src/browser/control-lease.ts:186-188 | after a forget, a stale action is admitted exactly when the handoffs since equal its generation and the agent owns the browser |
| ControlLease.StaleActionAfterForgetting | src/browser/control-lease.ts:186-188 | one take and a forget let a stale action through |
| ControlLease.LastHandoffDecides | src/browser/control-lease.ts:176-182 | an action without a generation is judged by the last handoff |
| ControlLease.AnswerTells | src/browser/control-lease.ts:176-183 | the agent is told that a human has the browser, or that the action is stale, by the last handoff and the number of handoffs |
| ControlLease.UntouchedIsTheAgents | src/browser/control-lease.ts:122-132 | a thread nobody took over is the agent's, in generation 0 |
| ControlLease.BrowserControlRegistry.CheckAgentAction | src/browser/control-lease.ts:176-183 | answers by owner first, then generation, and may insert a default lease |
| Artifacts.Read | src/artifacts/store.ts:97-163 | selects by pattern or clamped range, truncates and raises the flag |
| Artifacts.RangeIsClamped | src/artifacts/store.ts:146-147 | a range within the lines is taken as it is; a start or end outside them moves to the nearest line, an end before the start to the start |
| Artifacts.WindowIsTheRange | src/artifacts/store.ts:146-153 | for content that is not empty a window is exactly the lines from the clamped start to the clamped end, numbered consecutively |
| Artifacts.EmptyContentShowsALine | src/artifacts/store.ts:203-206 | empty content counts no lines and shows one |
| Artifacts.MatchingIsFaithful | src/artifacts/store.ts:124-132 | a line is listed if and only if it passes the pattern, under its own number |
| Artifacts.TruncateLines | src/artifacts/store.ts:214-233 | the loop keeps the longest prefix within the budget and cuts the next line |
| Artifacts.TruncationKeepsAPrefix | src/artifacts/store.ts:220-232 | what is returned is the longest prefix of the selection within the budget, and then the next line, cut to the bytes left less 60 and marked |
| Artifacts.FlagIsHonest | src/artifacts/store.ts:161-162 | the flag is raised if and only if the result differs from the selection |
| Artifacts.TruncationIsBounded | src/artifacts/store.ts:222-226 | for single-byte text the overshoot is at most 38 bytes |
| Artifacts.EncodedReadBack | src/artifacts/store.ts:208-212 | the byte length of a character is that of its UTF-8 encoding, which decodes to it |
| Artifacts.CostIsOfTheText | src/artifacts/store.ts:208-212 | the bytes of lines are those of their texts with a line end after each |

## Left out

- SkillReading.DocumentIsRead: a key of a single dash with space before its colon, below another key, would be an item and is no entry of such a document; space after a value is not part of one either.
- ConditionalSkills.MeantIfUnquestioned: a pattern that completes a placeholder by accident compiles to another text (ConditionalSkills.ChainGivesTokens); that this text never happens to accept the same paths is not stated.
- FanOut.EachRecordFoldsOnceIfHeld: leaves out that history is read before every subscription, which changes no notification and no live turn (Hydration.ReadingHistoryTellsNothing, Hydration.LiveTurnsAreUntouched).
- MemoryStore.TornLineLosesARecord: says what happens when the torn line still loads; whether a malformed torn line swallows the next record depends on the JSON parser, which is a parameter.
- ManagedThread.VerdictMeaning: leaves out the note a run fault adds to its message.
- ClientParity.ClientShowsTheTranscript: covers items, status, error, usage and thread notices, not the client's plan, todo and verification panels or its own timers. The client drops the error of a failed turn that is started again, so errors agree only while the client shows one.
- SkillAuthor.SkillRoundTrip: skills without `validation`, which is never read back (SkillReading.NoValidationIsEverRead); references and paths come from the file system, and a decimal fraction keeps its text.
- The items of a turn are values: that a later delta changes an item object already handed out is modelled by announcing a copy, as `structuredClone` does.
- `liveOutput` stays on a completed tool call, as in the source; history turns with equal user text are dropped as duplicates by `hydrate`, so nothing is claimed about keeping them.
- Exactly one `serverRequest/resolved` per approval: an internal settlement followed by a late answer sends two, so the notification itself is not modelled.
- `closed` is not absorbing: a turn that ends after the two seconds `close` waits resets it, and the model does the same.
- Steering, the turn's control object, the engine, the session journal and file policies.
- Persistence of metadata fields, thread listing, provider, settings and catalogue requests.
- Sockets, HTTP upgrades, CDP traffic, Playwright and timers: sends, probes, connects and timeouts are steps or parameters.
- The JSON path of an artifact read, and the artifact index.
- `selectRelevantSkills`, `renderSkillForModel`, directory walks and path normalization around the globs.
- `search`, `summarize` and contradiction detection of the memory store, and file system errors.
- `__proto__` as a frontmatter key.
