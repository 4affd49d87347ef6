# Verification of the worker's thread runtime

A Dafny model of the distributed thread runtime: the ownership protocol kept in Postgres, the actor that consumes
redelivered commands and drives model responses, the fan-in barrier of child threads, and the codecs, logs, tables and
reducers around them. `dafny verify dfyconfig.toml` checks everything.

Each part follows the form of its source. Code that changes rows, fields or buffers is a class or a method with loops,
and every such method is proved equal to a transition function on values; the properties are lemmas about those
functions over all inputs, all runs, all interleavings and all failures.

| file | component |
|---|---|
| `Ownership.dfy` | leases and fencing generations of one thread: claim, renew, rotate, release |
| `ChildBarrier.dfy` | the barrier of a spawn group: child results, crashes between writes, recovery |
| `ToolDispatch.dfy` | what a response's event stream does to its thread |
| `SendLoop.dfy`, `PreparedInput.dfy` | submitting, streaming and answering page reads, turn after turn |
| `DocQueryRound.dfy`, `CitationRound.dfy` | encoding, grouping and aggregating rounds of tool calls |
| `QueryRounds.dfy` | a round of queries or of spawned threads from the response that asked to every answer sent back |
| `SocketBudget.dfy` | the shared socket counter and the actors that hold sessions |
| `CommandDelivery.dfy` | deliveries, redeliveries, transient failures and acknowledgements |
| `FrameCodec.dfy` | the event relay's binary frames |
| `HistoryPaging.dfy` | scanning and paging one subject of a sparse shared log |
| `WebsocketSession.dfy` | one websocket session and the read loops of its old connections |
| `SocketRows.dfy` | the table of websocket sessions and its sweep loops |
| `StreamReducer.dfy` | the frontend's reducer from stream events to messages |
| `IdempotencyIds.dfy`, `Decimal.dfy` | the ids under which submissions are filed |
| `Wrappers.dfy`, `Text.dfy` | option and result types, white space |

Conventions. One database transaction or statement is one atomic step. Clocks, database and network faults, dial
outcomes and remote replies are parameters, so each theorem covers all of them. Times are integers; an unset time is
`None` or 0. JSON text enters as a pair of functions with `unmarshal(marshal(x)) == x` whose text starts with `{`.

Findings. Eight promises do not hold on all inputs. Each is proved with the exact condition under which it does, and
with a concrete input on which it fails:

- Calls the model emitted are dropped when some event up to the terminal one cannot be recorded or reports an error, when
  a `spawn_threads` call does not decode, when a response is several `spawn_threads` calls and nothing else (only the
  last one starts a group), or when the group it asks for cannot be started (`ToolDispatch.NoDroppedCallIff`; for queries,
  in terms of the attached documents, `QueryRounds.NoDroppedQueryIff`). They are lost for good when a query names an
  unattached document, because the failed precondition (internal/worker/actor.go:3605) is acknowledged
  (internal/worker/actor.go:343-349) and the thread stays running; when there are several `spawn_threads` calls, because
  the response is over; and after an error event, which is acknowledged with the thread failed. After rejected arguments
  or a failed write the command is put back and executed again, which sends the request anew. Inputs:
  `QueryRounds.UnattachedQueryIsDropped`, `ToolDispatch.FirstSpawnIsDropped`, `ToolDispatch.RejectedSpawnIsDropped`,
  `ToolDispatch.UnrecordedEventDropsTheCall`.
- A child whose cancel, terminal event or error event cannot be saved, or whose exhausted retries meet a thread row that
  is not loaded or not found, keeps its session and its slot (`SocketBudget.EndedChildHoldsNoSlotIff`; input
  `SocketBudget.UnsavedEndKeepsTheSlot`).
- A round drops or renames `query_document` calls whose id is empty or has white space around it
  (`QueryRounds.RoundKeepsCallsIff`; input `QueryRounds.PaddedIdIsRenamed`).
- A single `query_document` call whose id starts with `{` is stored as a bare id and read back as JSON
  (`DocQueryRound.SingleCallRoundTripsIff`; input `DocQueryRound.BraceIdIsLost`).
- `WriteFrame` does not apply the size limit `ReadFrame` enforces (`FrameCodec.FrameRoundTripIff`; input
  `FrameCodec.OverlongFrameIsRefused`).
- A stream of frames cut short reads as a clean end of stream at a frame boundary, but also right after a header
  (`FrameCodec.CutReadsAsEndIff`; input `FrameCodec.HeaderAloneReadsAsEnd`).
- A failed dial clears the session's state without looking at its connection, so overlapping `Connect` calls can leave
  a held connection in the disconnected state (`WebsocketSession.HeldIffConnectedExactly`; run
  `WebsocketSession.OverlappingConnectsLoseAConnection`), or a read loop that nothing stops
  (`WebsocketSession.NoReadLoopIsLeft`; run `WebsocketSession.OverlappingConnectsLeaveAReadLoop`).
- A touch with a read or write time before the connection is rejected as a whole when that column is still unset, and
  ignored per column otherwise, so the order of touches can matter (`SocketRows.NoOrderLosesATouchIff`; input
  `SocketRows.AnEarlyReadLosesAHeartbeat`).

Two smaller points. Without delivery metadata a transiently failing command is put back for two seconds for ever
(`CommandDelivery.NoMetadataNoExhaustion`). The batch that disconnects lapsed sessions fails as a whole if one of them
was connected after the sweep's time (`SocketRows.AnEarlyExpiryBlocksTheSweep`); that takes an expiry before the
connection. The worker stores expiries two minutes after a time read once the connection is made, so the sweep never
fails on rows it wrote (`SocketRows.SweepNeverFails`) unless a clock steps back by more than that in between.

## Model

| member | source | states |
|---|---|---|
| Ownership.OwnershipStore.ClaimOwnership | internal/postgresstore/store.go:313-407 | the claim transaction on the thread and owner rows does exactly the specified transition and answer, whatever the rows hold |
| Ownership.OwnershipStore.RenewOwnership | internal/postgresstore/store.go:409-422 | renewing extends the lease of exactly the row with this worker and generation and reports whether there was one |
| Ownership.OwnershipStore.RotateOwnership | internal/postgresstore/store.go:484-535 | rotating moves both rows to the next generation together or changes neither |
| Ownership.OwnershipStore.ReleaseOwnership | internal/postgresstore/store.go:537-581 | releasing removes the owner row and clears the thread row for the matching token only |
| Ownership.OnlyTheHolderActs | internal/postgresstore/store.go:409-581 | renew and rotate succeed, and release takes effect, if and only if the token is the held one; every other call leaves both rows unchanged |
| Ownership.ClaimDecision | internal/postgresstore/store.go:332-407 | a claim is refused exactly while another worker's lease runs and then changes neither row; a granted claim keeps the generation exactly when the same worker already held it |
| Ownership.StepKeepsConsistent | internal/postgresstore/store.go:313-581 | the two rows agree on holder and generation after every step, the generation never falls and rises with every new holder |
| Ownership.Fencing | internal/postgresstore/store.go:313-581 | in every run of any workers, a token once superseded or released is dead for ever: later renews and rotates with it fail and releases with it do nothing |
| Ownership.SameGenerationIffHeldThroughout | internal/postgresstore/store.go:352-358 | two holders of a run share a generation if and only if the token was held without a break, so owner changes, rotations and claims after a release take new generations and a generation belongs to one worker |
| Ownership.LeaseExclusion | internal/postgresstore/store.go:332-422 | over timed runs with a non-decreasing clock, from free or held rows, ownership periods, from the claim until the release or the end of the last lease asked for, never overlap |
| Ownership.LeaseIsHonoured | internal/postgresstore/store.go:344-407 | for every lease given by a claim, renewal or rotation, every other worker is refused for exactly the time asked for and granted the next generation from its end on, at once when no time was asked for; the holder can claim at any time |
| Ownership.StepsWrite | internal/postgresstore/store.go:365-581 | which columns each step writes: a rotation names and stores the next generation and the socket expiry, a release frees the thread and clears response and expiry, a holder's claim keeps the time of its first |
| Ownership.RowsThatDisagree | internal/postgresstore/store.go:332-358 | on any rows, also ones no run leaves, the owner row decides a claim wherever it names a worker or a generation, a rotation needs both rows to agree, and missing threads and exhausted generations change nothing |
| ChildBarrier.BarrierStore.UpsertSpawnResult | internal/postgresstore/store.go:1014-1110 | a child's first result is stored and later ones are refused, and the listing returned is that of the rows after it |
| ChildBarrier.SummarizeSpawnResults | internal/worker/actor.go:3280-3293 | the loop's three tallies are the numbers of results of each status |
| ChildBarrier.BarrierStore.HandleChildResult | internal/worker/actor.go:871-1019 | handling a result, with a failure at any call, is the specified transition of group, rows, parent and continuations sent |
| ChildBarrier.BarrierStore.RecoverThread | internal/worker/actor.go:1224-1267 | adopting or reconciling a thread with a barrier, with a failure at any call, is the specified transition |
| ChildBarrier.BarrierStore.RecoverWaitingChildren | internal/worker/actor.go:1322-1417 | the recovery path recounts, marks once and resends as specified |
| ChildBarrier.ListedInOrder | internal/postgresstore/store.go:1861-1900 | results are listed each once, by recording time and then child id |
| ChildBarrier.CountIsTally | internal/worker/actor.go:3280-3293 | the listed results of a status are as many as the children that reported it, although the order is picked row by row |
| ChildBarrier.BarrierCounting | internal/worker/actor.go:913-937 | for every order, duplication and conflict of deliveries and every failure: first results stick, counts never fall or exceed the reported or expected children, and a closed group stays closed and has every child reported |
| ChildBarrier.SmoothRunsCount | internal/worker/actor.go:931-937 | while calls succeed, completed + failed + cancelled is the number of children that reported and the group is closed exactly when all have |
| ChildBarrier.ClosesIffAggregates | internal/worker/actor.go:953-963 | the delivery of the last missing result closes the group if and only if the results aggregate; otherwise the group row is left behind |
| ChildBarrier.SubmittedOnceAndAlike | internal/worker/actor.go:953-1010 | submission time and command are set at most once, only on a closed barrier, and never change; the direct path resumes the parent at most once; every resume of a non-citation group, direct or recovered, carries identical items because the closed results are frozen |
| ChildBarrier.FailedResumeIsRecovered | internal/worker/actor.go:1322-1417 | when the delivery of the last missing result fails anywhere after recording it, nothing is lost: the next successful recovery sends exactly what the delivery would have sent |
| ChildBarrier.RecoveryResends | internal/worker/actor.go:1340-1416 | a successful recovery of a fully reported group sends the aggregate, closes and marks the group and sets the parent running, marked before or not |
| ChildBarrier.LastDeliveryResumes | internal/worker/actor.go:913-1010 | whatever the children's statuses, the delivery of the last missing result of an answerable group stores it, closes the group, marks it with its command and time, sets the parent running and sends once by the direct path; with a failure it keeps exactly what was written before it |
| ChildBarrier.OtherDeliveriesWait | internal/worker/actor.go:871-952 | every other delivery leaves parent and continuations alone: unawaited or to a submitted group it changes nothing, with results missing it stores the first result and counts |
| ChildBarrier.LastResultResumesTheParent | internal/worker/actor.go:953-1010 | in every run, when all others reported and nothing was submitted, an awaited delivery whose calls succeed resumes the parent exactly once and closes and marks the group |
| ChildBarrier.RecoveryFailsLate | internal/worker/actor.go:1371-1416 | a recovery that fails after marking a fully reported group sends nothing and leaves it closed and marked for the next one |
| ChildBarrier.RecoveryKeepsWaiting | internal/worker/actor.go:1345-1369 | a recovery that finds results missing keeps the thread waiting and sends nothing |
| ChildBarrier.RecoveryBreaksOff | internal/worker/actor.go:1340-1400 | a recovery whose group row or mark cannot be saved sends nothing and leaves the mark as it was |
| ChildBarrier.RecoveryOfAnotherThread | internal/worker/actor.go:1224-1267 | recovering a thread that is not stalled on this group leaves the group alone and reconciles the thread exactly when it was running or reconciling, has a response in flight or is forced to |
| ChildBarrier.FirstResultSticks | internal/postgresstore/store.go:1014-1110 | in every run a child that has reported holds the payload and time of the first awaited delivery of a result of it, and one that has not has had none |
| ToolDispatch.StreamUntilTerminal | internal/worker/actor.go:2207-2587 | the event loop ends by the first terminal event, the first event whose writes fail, the first rejected spawn_threads call or the end of the stream, with the stored thread row, the dispatch and the page reads that calls for and no other |
| ToolDispatch.Finish | internal/worker/actor.go:2415-2587 | a terminal event starts at most one group, returns page reads or settles the thread's status, and fails only when a group was asked for and could not be started |
| ToolDispatch.EndsOneWay | internal/worker/actor.go:2207-2587 | the deciding event is unique, so how a response ends, what it dispatches, which page reads it returns and what becomes of the thread follow from the events and the group start's answer alone |
| ToolDispatch.WaitingIff | internal/worker/actor.go:2315-2397 | on a thread that is not one-shot, dispatch is blocked if and only if some call is unknown or does not decode or a cap is exceeded, and otherwise the pending lists are every call of their kind in order |
| ToolDispatch.RejectedIff | internal/worker/actor.go:2315-2330 | streaming stops with an error if and only if a spawn_threads call does not decode |
| ToolDispatch.UniformOutcome | internal/worker/actor.go:2415-2483 | calls of one decodable kind within the caps are all dispatched in one group or all returned as page reads |
| ToolDispatch.CompletedOutcome | internal/worker/actor.go:2415-2483 | success is reached if and only if there were no calls, and calls that are not of one dispatchable kind dispatch nothing and leave waiting_tool |
| ToolDispatch.NoDroppedCallIff | internal/worker/actor.go:2280-2515 | over every way a stream can end whose terminal event says the response completed, recorded or not: every call emitted before it is answered in order by the single group or the page reads, or the thread is waiting_tool with nothing dispatched, if and only if there was no call or no earlier event stopped the stream, all spawn_threads calls decode, they are not several and alone, the terminal event was recorded and the group asked for was started |
| ToolDispatch.FinishedResponseAnswersIff | internal/worker/actor.go:2415-2557 | once finished, nothing is dropped if and only if the response is not several spawn_threads calls; groups keep to 50 and 20, and ready or completed is reached if and only if there were no calls |
| ToolDispatch.FinishedThread | internal/worker/actor.go:2465-2500 | a response without calls leaves a root thread or reusable query child ready and any other child completed, a failed one failed, an incomplete one incomplete; no response is active, the last one is the one that ended and a done thread leaves its group |
| ToolDispatch.BusyThread | internal/worker/actor.go:2415-2480 | a completed response with calls leaves waiting_children under the new group, running for page reads, waiting_tool when its calls are refused, with the response recorded as the last |
| ToolDispatch.DecidingEvent | internal/worker/actor.go:2207-2587 | which event decides a response and how: the first completed, failed or incomplete response, error event or unrecorded event, a spawn_threads call that does not decode, or the end of the events |
| ToolDispatch.StreamingThread | internal/worker/actor.go:2309-2314 | while a response streams, announcing it marks the thread running, and the last id it was announced under is the active response |
| ToolDispatch.DispatchableCalls | internal/worker/actor.go:2315-2397 | which arguments of each of the four tools may be dispatched, limits written out, and that no other tool's call may |
| ToolDispatch.UnrecordedEventDropsTheCall | internal/worker/actor.go:2280-2306 | an input on which a call is dropped: an event between the call and the end that cannot be recorded |
| ToolDispatch.RejectedSpawnIsDropped | internal/worker/actor.go:2321-2325 | an input on which a call is dropped: one spawn_threads call that does not decode |
| ToolDispatch.FirstSpawnIsDropped | internal/worker/actor.go:2321-2327 | an input on which a call is dropped: the first of two spawn_threads calls |
| ToolDispatch.OneShotIgnoresUnknownCalls | internal/worker/actor.go:2380-2397 | on a one-shot thread calls of no known tool neither dispatch nor strand the thread |
| PreparedInput.Resolve | internal/worker/actor.go:3500-3560 | the output of a page read carries the call's id if and only if the exchange failed or its single item does, and every failure becomes an error output |
| PreparedInput.BuildReadDocumentPageInput | internal/documenthandler/service.go:538-574 | the handler answers exactly for a positive page of the manifest and a non-blank call id, with one item that holds the manifest's entry for that page under that id |
| PreparedInput.ResolveByReply | internal/worker/actor.go:3500-3560 | the exact output for an unanswered request, a status other than ok with or without an error text, an unreadable artifact, one that is not a single item and a single item |
| PreparedInput.PageReadReply | internal/documenthandler/service.go:538-574 | the handler's reply in each case: the manifest's entry for the page under the call's id, or the error of a page number, call id or page that is not there |
| SendLoop.PageOutput | internal/worker/actor.go:3477-3563 | a page read's output carries the call's own id whatever the attachment, request, status or artifact failure |
| SendLoop.PageReadHoldsThePage | internal/documenthandler/service.go:538-574 | across worker and handler, an undisturbed read of an attached document holds exactly that document's entry for that page, or is an error under the call's id when there is none |
| SendLoop.PageReadFails | internal/worker/actor.go:3477-3563 | a read of a document that is not attached, or whose exchange fails, is an error under the call's id |
| SendLoop.ExecutePendingPageReads | internal/worker/actor.go:3477-3563 | one output per call, in order |
| SendLoop.StreamTurn | internal/worker/actor.go:1713-1740 | a turn is continued if and only if its response only read pages and the follow-up could be prepared, and then with the outputs answering that response; otherwise it succeeds if and only if the response ended without a page to read and with its group, if any, started |
| SendLoop.SendAndStream | internal/worker/actor.go:1706-1751 | the loop submits turn after turn under the turn's id, each follow-up answering the turn before; it goes on exactly while requests are accepted, responses only read pages and the follow-up can be prepared, and succeeds exactly when the last response settled |
| SendLoop.EveryTurnAnswersTheOneBefore | internal/worker/actor.go:1706-1751 | over a whole loop on a thread that is not one-shot, every request after the first holds exactly one function_call_output per call of the response before it, up to its first terminal event, in order and under its call id |
| SendLoop.TurnsFiledApart | internal/worker/actor.go:1760-1848 | the submissions of one command never share a checkpoint or event id |
| DocQueryRound.NormalizeNormalises | internal/worker/actor.go:3737-3754 | normalised calls have trimmed non-blank ids and positive documents |
| DocQueryRound.StoredRounds | internal/worker/actor.go:3797-3835 | which rounds are stored as JSON and which not at all, and exactly which stored text is a round, a bare id, nothing or an error |
| DocQueryRound.RoundTrip | internal/worker/actor.go:3797-3835 | decoding an encoded round of normalised calls gives the same ids in order, and the same calls when there are at least two |
| DocQueryRound.SingleCallRoundTripsIff | internal/worker/actor.go:3797-3835 | a single call's id survives if and only if it does not start with an opening brace or is JSON of another kind |
| DocQueryRound.BraceIdIsLost | internal/worker/actor.go:3797-3835 | an input on which the round trip fails: a call id that is a lone brace |
| DocQueryRound.BuildDocQueryDocWork | internal/worker/actor.go:3756-3774 | grouping in place, through indexes into slots that never move, gives one group per document |
| DocQueryRound.GroupingPartitions | internal/worker/actor.go:3756-3774 | the groups' documents are distinct, no group is empty and together they hold each call with a positive document exactly once |
| DocQueryRound.FirstAppearanceOrder | internal/worker/actor.go:3756-3774 | documents are in order of first appearance |
| DocQueryRound.AggregateSpawnOutputItem | internal/worker/actor.go:3306-3401 | the aggregation loops give one output per decoded binding, or the error of an undecodable or empty round |
| DocQueryRound.EntriesTell | internal/worker/actor.go:3306-3345 | each listed child is one entry with its thread id, status and response id, and with each of assistant text, result, summary and error reference and document exactly when it has one |
| DocQueryRound.FanInAnswersEveryCall | internal/worker/actor.go:3306-3401 | encoding a round, closing its barrier and aggregating answers each call once, in order and under its id, with exactly the terminal results for its document, payloads included |
| DocQueryRound.FanOutFanIn | internal/worker/actor.go:3573-3835 | with one result per started child, each call's answer holds exactly its document's one result, in whatever order children reported |
| QueryRounds.RoundKeepsCallsIff | internal/worker/actor.go:3737-3754 | a round keeps every dispatched call under its own id if and only if no id is empty or has white space around it |
| QueryRounds.PaddedIdIsRenamed | internal/worker/actor.go:3737-3754 | an input on which it does not: an id with a space before it is answered under another id, an empty one is dropped |
| QueryRounds.StartDocumentQueryGroup | internal/worker/actor.go:3573-3606 | the start checks the round and collects the unattached documents, and fails unless there are none |
| QueryRounds.QueryGroupStartsIff | internal/worker/actor.go:3573-3606 | a group of queries starts if and only if some call has an id, every document asked for under an id is attached and the group can be opened |
| QueryRounds.NoDroppedQueryIff | internal/worker/actor.go:2415-2483 | a completed response of queries alone, within the cap, drops nothing if and only if its stream ran on to a recorded end, some call has an id, every document asked for under an id is attached and the group could be opened |
| QueryRounds.UnattachedQueryIsDropped | internal/worker/actor.go:3604-3606 | an input on which a call is dropped: one query of an unattached document leaves the thread row running with its call unanswered |
| QueryRounds.ReportedRoundIsComplete | internal/worker/actor.go:3594-3720 | when every child has reported, the listing holds one terminal result per document of the round |
| QueryRounds.EverySendAnswersEveryCall | internal/worker/actor.go:953-1010 | in every run of deliveries and recoveries with any failures, whatever is sent to the parent for a round answers each of its calls once, in order and under its id, with the one result of the child of its document |
| QueryRounds.SentChildrenShowTheirFirstResult | internal/worker/actor.go:3306-3345 | in every run, each child object of whatever is sent has the child's thread id, and the status, response id, assistant text and references of the first awaited delivery of a result of it, each optional one present exactly when it is not empty |
| QueryRounds.DispatchedQueriesAreAnswered | internal/worker/actor.go:2415-2483 | for a response that dispatched queries under clean ids, every continuation of its group answers every call the model emitted, in order and under its id |
| QueryRounds.EverySendAnswersTheSpawn | internal/worker/actor.go:3306-3401 | in every run of a spawn_threads group, whatever is sent is one output under the call's id that holds each child's terminal result exactly once |
| QueryRounds.DispatchedSpawnIsAnswered | internal/worker/actor.go:2453-2459 | for a response of one spawn_threads call under a plain id, every continuation of its group answers that call with every child's result |
| CitationRound.CitationRoundTrip | internal/worker/citation_locator.go:64-94 | a citation round decodes to the bindings it was encoded from, single-call rounds included |
| CitationRound.StoredCitations | internal/worker/citation_locator.go:64-94 | which rounds are stored and exactly which stored text is a citation round |
| CitationRound.AggregateCitations | internal/worker/citation_locator.go:375-463 | exactly one output per binding, made from the result of the binding's own child, and an error exactly when there are no bindings |
| CitationRound.CitationAnswersItsCall | internal/worker/citation_locator.go:405-463 | an output carries its binding's call id if and only if finalizing was not reached, failed, or answered under that id |
| CitationRound.CitationByResult | internal/worker/citation_locator.go:405-463 | the finalized item of a child that completed with arguments, or the error that says what is missing, status and error reference included |
| CitationRound.LookupIgnoresOrder | internal/worker/citation_locator.go:390-404 | matching by child thread id does not depend on the order in which children reported |
| SocketBudget.WorkerService.ReserveSocketSlot | internal/worker/service.go:119-131 | a slot is granted exactly below the maximum |
| SocketBudget.WorkerService.ReleaseSocketSlot | internal/worker/service.go:133-140 | a release gives one slot back and never goes below zero |
| SocketBudget.WorkerService.OpenFreshSession | internal/worker/actor.go:1550-1579 | a slot is taken only by an actor without a session and is given back when dialling fails |
| SocketBudget.WorkerService.CloseAndRelease | internal/worker/actor.go:1581-1595 | the slot goes back only when no session has taken the closed one's place |
| SocketBudget.WorkerService.SwapSessionState | internal/worker/actor.go:1597-1606 | the swap installs the new session and hands back the old one |
| SocketBudget.WorkerService.ResetSession | internal/worker/actor.go:3037-3049 | resetting drops the session, if any, and its slot |
| SocketBudget.WorkerService.ReconnectSession | internal/worker/actor.go:1507-1548 | reconnecting replaces the session or leaves actor and counter alone |
| SocketBudget.WorkerService.HandleRotateSocket | internal/worker/actor.go:1127-1182 | rotation with each outcome of dialling and of the store is the specified transition |
| SocketBudget.WorkerService.HandleLeaseLoss | internal/worker/actor.go:1671-1704 | a lost lease of the current generation drops the session and the actor, a stale one does nothing |
| SocketBudget.WorkerService.FinishTurn | internal/worker/actor.go:2510-2584 | a finished turn resets the session of a terminal child once its row is saved and of a one-shot thread once its result is published, and retires terminal children |
| SocketBudget.WorkerService.StopThread | internal/worker/actor.go:1282-1294 | a cancel, like an error event, gives the session back only once the row is saved |
| SocketBudget.WorkerService.GiveUpThread | internal/worker/actor.go:461-490 | exhausted retries, like a missing checkpoint, drop the session only once the row is loaded, and settle the status, and a finished child, only once it is stored |
| SocketBudget.WorkerService.CloseActor | internal/worker/actor.go:228-265 | closing an actor gives its slot back |
| SocketBudget.ReconnectBalances | internal/worker/actor.go:1507-1606 | an actor gains a session if and only if dialling succeeds and it held one already or fewer than the maximum do, and the counter stays exact |
| SocketBudget.RotateBalances | internal/worker/actor.go:1127-1182 | the same for rotation; a store error leaves everything as it was and lost ownership removes the actor with its slot |
| SocketBudget.BudgetConserved | internal/worker/service.go:119-140 | over every sequence of operations on any number of actors, slots used equal the actors holding a session and never exceed the maximum |
| SocketBudget.HolderSwapsAtTheCeiling | internal/worker/actor.go:1550-1606 | an actor that holds a session can swap it with every slot taken, without taking another |
| SocketBudget.EndedChildHoldsNoSlotIff | internal/worker/actor.go:267-311 | after a finished turn, remote error, cancel, exhausted retries or missing checkpoint a child holds no slot if and only if it held none before or the first store call of that operation succeeded; it leaves the map if and only if its new status was stored |
| SocketBudget.TurnEndsByStatus | internal/worker/actor.go:4610-4616 | a saved turn that ends completed, failed, cancelled or incomplete removes a child with its session and slot; with any other status, unsaved, or on a root thread, the actor stays, and its session too unless it is one-shot and published |
| SocketBudget.ThreadEndsByOutcome | internal/worker/actor.go:1282-1294 | which session, slot, status and actor a cancel, an error event, exhausted retries and a missing checkpoint leave, by how far their store calls get |
| SocketBudget.IdleByStatus | internal/worker/actor.go:1127-1182 | an idle socket is dropped or rotated on a thread that is ready or waits for tools or children, and on no other |
| SocketBudget.TurnBegins | internal/worker/actor.go:1507-1548 | a turn begins on a fresh session when dialling succeeds and a slot is held or free, and keeps what there was otherwise; only running threads reconnect; a lost current lease and closing end an actor with its slot |
| SocketBudget.UnsavedEndKeepsTheSlot | internal/worker/actor.go:1286-1292 | inputs on which it keeps its slot: an unsaved cancel, terminal event or error event, and exhausted retries on a thread that is not loaded |
| SocketBudget.ExhaustionAlike | internal/worker/actor.go:461-490 | the account of exhausted retries by command and the one by socket agree on when the session goes and on the status the thread is left with |
| CommandDelivery.CommandHandler.HandleQueuedCommand | internal/worker/actor.go:313-392 | one delivery, with every failure of the store and every error class in the source's order, gives the specified state and reply |
| CommandDelivery.CommandHandler.HandleTransientCommandError | internal/worker/actor.go:429-459 | a transient failure is put back with a delay or, from the fifth delivery, fails the thread |
| CommandDelivery.CommandHandler.FailThreadAfterRetryExhaustion | internal/worker/actor.go:461-490 | failing a thread breaks off after whichever store call fails, keeping what was written before |
| CommandDelivery.ProcessedIsNeverExecutedAgain | internal/worker/actor.go:313-326 | in every run of deliveries of any commands a command marked processed is never executed again |
| CommandDelivery.CompletesAtMostOnce | internal/worker/actor.go:335-391 | a command completes at most once and is marked in the end if and only if it was before or completed |
| CommandDelivery.TransientReply | internal/worker/actor.go:429-490 | a transient failure with the store available is acknowledged if and only if it is the fifth delivery or later, with the thread failed, its session gone and nothing left owned |
| CommandDelivery.RepliesByOutcome | internal/worker/actor.go:313-392 | the reply and the marking for every lookup and outcome: what is processed or marked is acknowledged, an unmarked success put back, each error class acknowledged, terminated or put back |
| CommandDelivery.FailingByFault | internal/worker/actor.go:461-490 | what failing a thread leaves of its row, its owner and the session when each store call fails, also when another worker owns it |
| CommandDelivery.AtMostFiveExecutions | internal/worker/actor.go:429-459 | a command that only fails transiently, delivered with rising numbers among other commands, is executed at most five times |
| CommandDelivery.DelaysNeverShrink | internal/worker/actor.go:505-521 | its delays never shrink and never exceed thirty seconds, and after them comes only the acknowledgement |
| CommandDelivery.DelaysGrow | internal/worker/actor.go:505-521 | delays are 2, 4, 8, 16 and then 30 seconds, growing with the delivery number |
| CommandDelivery.NoMetadataNoExhaustion | internal/worker/actor.go:492-503 | without delivery metadata every failure is put back for two seconds and the command never gives up |
| FrameCodec.WriteFrame | internal/eventrelay/eventrelay.go:23-47 | a frame with an event type of at most 255 bytes is appended in its wire form, any other leaves the stream alone |
| FrameCodec.ReadFrame | internal/eventrelay/eventrelay.go:49-78 | reading through a header and a body buffer gives the stream's first frame and leaves the rest, or the specified error, with every slice in bounds |
| FrameCodec.FrameRoundTripIff | internal/eventrelay/eventrelay.go:23-78 | reading back a written frame gives it and what follows it if and only if its length is at most 16 MiB, negative thread ids included |
| FrameCodec.OverlongFrameIsRefused | internal/eventrelay/eventrelay.go:23-60 | an input on which it fails: a frame one byte over the limit is written and then refused |
| FrameCodec.AcceptedBytesAreWire | internal/eventrelay/eventrelay.go:49-78 | whatever is accepted is the wire form of the frame it gives |
| FrameCodec.WireByteByByte | internal/eventrelay/eventrelay.go:23-47 | every byte of a frame by its position: length and two's-complement thread id most significant byte first, the event type's length, event type, payload |
| FrameCodec.ParseErrors | internal/eventrelay/eventrelay.go:49-78 | exactly which inputs read as an end of stream, as too large and as invalid |
| FrameCodec.FramesRoundTripIff | internal/eventrelay/eventrelay.go:23-78 | a list of frames reads back as itself, consuming exactly the bytes written, if and only if every frame fits |
| FrameCodec.CutFrame | internal/eventrelay/eventrelay.go:49-78 | a frame cut short reads as an end of stream if nothing of it or exactly its header is there, and as an unexpected end anywhere else |
| FrameCodec.CutReadsAsEndIff | internal/eventrelay/eventrelay.go:49-78 | a list of frames cut short anywhere reads as a clean end of stream if and only if the cut is at a frame boundary or right after a header |
| FrameCodec.HeaderAloneReadsAsEnd | internal/eventrelay/eventrelay.go:49-78 | an input on which a cut goes unnoticed: a frame of one payload byte cut right after its header |
| HistoryPaging.ScanBackward | internal/threadhistory/store.go:244-274 | the last `limit` events of the subject up to a position, ascending, or an error exactly when one of them does not decode |
| HistoryPaging.ScanForward | internal/threadhistory/store.go:217-242 | the first `limit` events of the subject from a position, ascending, or an error exactly when one of them does not decode |
| HistoryPaging.ListEvents | internal/threadhistory/store.go:154-194 | for every combination of cursors and limit, the page asked for |
| HistoryPaging.PageAfterCursor | internal/threadhistory/store.go:217-242 | a page after a cursor holds the subject's stored messages behind it in order and without a gap; what it leaves out lies behind a full page |
| HistoryPaging.PageBeforeCursor | internal/threadhistory/store.go:244-274 | a page before a cursor, or the newest, holds the subject's stored messages up to there in order and without a gap; what it leaves out lies before a full page |
| HistoryPaging.InvalidCursorIff | internal/threadhistory/store.go:154-194 | a cursor is refused if and only if it is not a positive number, except a Before of a subject without messages |
| HistoryPaging.BadRecordPage | internal/threadhistory/store.go:217-274 | a page fails on its content only for a message of the subject that does not decode |
| HistoryPaging.PositionsListRange | internal/threadhistory/store.go:217-274 | the positions pages are taken from are exactly the subject's positions in range, ascending, without repeats |
| HistoryPaging.PageThroughHistory | internal/threadhistory/store.go:154-194 | paging back with Before set to the first cursor of each page ends and the pages joined are the whole history |
| HistoryPaging.OlderPage | internal/threadhistory/store.go:244-274 | a page is exactly what lies between its first event and the bound: no gap and no repeat |
| IdempotencyIds.SubmissionIdsInjective | internal/threadhistory/store.go:42-53 | distinct (thread, command, turn) triples never share a checkpoint or client-event message id |
| IdempotencyIds.ResponseCreateEventIdInjective | internal/worker/actor.go:1760-1766 | the event id of a submission determines command and turn |
| IdempotencyIds.IdsByTurn | internal/threadhistory/store.go:42-53 | the ids as stored: the first turn goes by the command alone, each later one adds its number |
| Decimal.FormatIntInjective | internal/worker/actor.go:1760-1766 | decimal printing of integers is injective |
| WebsocketSession.Session.BeginConnect | internal/openaiws/session.go:59-74 | connecting is refused exactly while a connection is held |
| WebsocketSession.Session.FinishConnect | internal/openaiws/session.go:76-111 | a dial's outcome installs connection, loop and generation together or marks the session disconnected |
| WebsocketSession.Session.SendEvent | internal/openaiws/session.go:113-138 | a broken write drops the connection and cancels its read loop, a timed-out one does not |
| WebsocketSession.Session.InvalidateConn | internal/openaiws/session.go:231-255 | a failed ping drops the connection it pinged only if that is still the current one |
| WebsocketSession.Session.CloseSession | internal/openaiws/session.go:182-212 | closing clears every field of the connection and cancels its read loop |
| WebsocketSession.Session.NoteRead | internal/openaiws/session.go:278-282 | a received message moves the last read time only for the current connection |
| WebsocketSession.Session.FinishReadLoop | internal/openaiws/session.go:293-309 | the end of a read loop touches the session only while its connection is the current one |
| WebsocketSession.HeldIffConnectedExactly | internal/openaiws/session.go:59-111 | in every interleaving, a connection is held exactly when the state is connected, if and only if no dial fails over a held connection |
| WebsocketSession.OverlappingConnectsLoseAConnection | internal/openaiws/session.go:59-111 | a possible run on which it fails: two overlapping Connect calls, the second of which fails |
| WebsocketSession.HeldIffConnectedWhenSerial | internal/openaiws/session.go:59-111 | with serial Connect calls a connection is held exactly when the state is connected, after every event |
| WebsocketSession.GenerationCountsConnects | internal/openaiws/session.go:95-98 | the 64-bit generation counts the successful connects |
| WebsocketSession.OldConnectionIsPowerless | internal/openaiws/session.go:231-309 | taking every read, ping failure and loop exit of an old connection out of a run changes nothing |
| WebsocketSession.OnlyCloseCloses | internal/openaiws/session.go:257-309 | after any run a cancelled read loop ends silently, so only Close closes a session |
| WebsocketSession.NoReadLoopIsLeft | internal/openaiws/session.go:76-111 | with serial Connect calls every connection ever dialled is the current one, or its read loop was cancelled, or has ended by itself |
| WebsocketSession.OverlappingConnectsLeaveAReadLoop | internal/openaiws/session.go:76-111 | a possible run on which one is left behind: two overlapping dials that both succeed |
| WebsocketSession.ReaderIsTold | internal/openaiws/session.go:231-309 | after any run, when a connection goes, what the reader is told and the state left: the loop's own error, not connected after a broken write or ping, nothing after Close |
| WebsocketSession.ConnectionGoesIff | internal/openaiws/session.go:113-309 | with serial Connect calls a held connection goes if and only if the session is closed, a write breaks, or its own ping or read loop fails |
| WebsocketSession.FieldsByEvent | internal/openaiws/session.go:59-309 | what each event does, on any state, to the phase, the reader's error, the loop's done channel and the cancelled contexts |
| WebsocketSession.TimesByEvent | internal/openaiws/session.go:95-136 | which events move the connect, read and write times |
| SocketRows.SocketTable.CreateSession | internal/postgresstore/openai_socket_sessions.go:11-106 | a session is inserted, missing state and times filled in, exactly when it is fully identified, its id is new and the row meets the table's constraints |
| SocketRows.SocketTable.TouchRowById | internal/postgresstore/openai_socket_sessions.go:108-153 | a touch raises times of connected rows only, and is rejected as a whole exactly when it breaks a constraint |
| SocketRows.SocketTable.DisconnectById | internal/postgresstore/openai_socket_sessions.go:155-190 | disconnecting keeps what an earlier disconnection recorded |
| SocketRows.SocketTable.DisconnectExpiredBatch | internal/postgresstore/openai_socket_sessions.go:192-226 | a batch takes the first lapsed rows by time and id up to the limit, all or none of them |
| SocketRows.SocketTable.PruneBatch | internal/postgresstore/openai_socket_sessions.go:228-255 | a batch deletes the first expired rows by time and id up to the limit |
| SocketRows.BatchIsDetermined | internal/postgresstore/openai_socket_sessions.go:197-206 | due rows, collation and limit determine the batch |
| SocketRows.LapsedBatch | internal/postgresstore/openai_socket_sessions.go:197-206 | a batch holds connected rows with an expired heartbeat, none later than one left out, and all of them when it is not full |
| SocketRows.PrunedBatch | internal/postgresstore/openai_socket_sessions.go:233-242 | the same for disconnected rows whose time has come |
| SocketRows.SocketTable.DisconnectUntilExhausted | internal/worker/service.go:486-498 | the loop ends, with every lapsed row disconnected and counted, or with an error exactly when a lapsed row was connected after the sweep's time, having counted the rows it changed; expiries after the connections rule the error out |
| SocketRows.SocketTable.PruneUntilExhausted | internal/worker/service.go:499-511 | the loop ends with every expired row gone, only those, and their number as total |
| SocketRows.SocketTable.SweepSessions | internal/worker/service.go:484-526 | with expiries after the connections a sweep disconnects every lapsed row, prunes every expired one and no other, reports both numbers and leaves nothing due |
| SocketRows.SweepLeavesNothingDue | internal/worker/service.go:484-526 | a completed sweep leaves no lapsed and no expired row and never prunes a row it has just disconnected |
| SocketRows.RowAfterSweep | internal/worker/service.go:484-526 | what a completed sweep makes of each row: gone if it was disconnected and expired, disconnected as heartbeat_expired and kept for an hour if it had lapsed, untouched otherwise |
| SocketRows.SweepNeverFails | internal/worker/actor.go:1520-1530 | over every run in which expiries are set after the connection, as the worker sets them, no lapsed row is late and the sweep leaves nothing lapsed |
| SocketRows.AnEarlyExpiryBlocksTheSweep | internal/postgresstore/openai_socket_sessions.go:197-219 | an input on which the batch fails: an expiry before its connection and a sweep between the two keep another lapsed row connected |
| SocketRows.RowOnlyMovesForward | internal/postgresstore/openai_socket_sessions.go:108-255 | in every run a row goes from connected to disconnected to pruned, never back, and what its disconnection recorded stays |
| SocketRows.RegisteredRow | internal/postgresstore/openai_socket_sessions.go:11-106 | the row a registration gives, and that it meets the constraints if and only if its state fits its disconnection time, its generation fits the column and no time lies before the connection |
| SocketRows.RecordsDisconnection | internal/postgresstore/openai_socket_sessions.go:155-190 | the time, reason and expiry a disconnection records where the row has none, and that one before the connection changes nothing |
| SocketRows.ReachesIff | internal/postgresstore/openai_socket_sessions.go:116-141 | a touch reaches a row if and only if the row is connected and the touch sets no unset column to a time before the connection |
| SocketRows.ExpiryIsTheLastTouched | internal/postgresstore/openai_socket_sessions.go:133-136 | in every run a connected row's heartbeat expires when the last touch that reached it said, earlier or later, and a disconnected row's never |
| SocketRows.TimesAreTheLatestTouched | internal/postgresstore/openai_socket_sessions.go:116-141 | in every run a row's read, write and heartbeat times are the latest that reached it while connected |
| SocketRows.NoOrderLosesATouchIff | internal/postgresstore/openai_socket_sessions.go:116-141 | no order of a set of touches loses one if and only if none of them sets an unset column to a time before the connection |
| SocketRows.OrderOfTouchesIsIrrelevant | internal/postgresstore/openai_socket_sessions.go:116-141 | such touches give the same times in every order |
| SocketRows.AnEarlyReadLosesAHeartbeat | internal/postgresstore/openai_socket_sessions.go:116-141 | a concrete pair of touches whose order matters |
| StreamReducer.UpsertKeepsTheRest | frontend/src/thread/eventInterpreter.ts:141-162 | inserting a message replaces its own id or its optimistic twin in place or appends, keeps ids unique and every other message untouched |
| StreamReducer.UpsertByContent | frontend/src/thread/eventInterpreter.ts:141-162 | a user's message under a new id takes the place of the first optimistic one with its text and images |
| StreamReducer.UpsertAtTheEnd | frontend/src/thread/eventInterpreter.ts:141-162 | a message with neither its id nor an optimistic twin in the list goes to the end |
| StreamReducer.ApplyKeepsPlaces | frontend/src/thread/eventInterpreter.ts:217-268 | no event repeats an id or moves a message |
| StreamReducer.ApplyEffect | frontend/src/thread/eventInterpreter.ts:217-268 | an event appends its delta to, replaces, or leaves alone the text of each item, and affects at most the one it names |
| StreamReducer.MessageAfterAdded | frontend/src/thread/eventInterpreter.ts:190-222 | an announced message starts empty and streaming unless its deltas came first |
| StreamReducer.MessageAfterDelta | frontend/src/thread/eventInterpreter.ts:242-268 | a delta extends the message it names, or else that of its item, or starts one, and marks it streaming |
| StreamReducer.MessageAfterDone | frontend/src/thread/eventInterpreter.ts:315-344 | a finished item's own texts and images replace what was streamed, and it streams no more |
| StreamReducer.MessageAfterTheEnd | frontend/src/thread/eventInterpreter.ts:164-167 | the end of a response leaves every message in place and none streaming |
| StreamReducer.TextsInOrder | frontend/src/thread/eventInterpreter.ts:319-323 | the output texts of a finished item are joined in order by blank lines, blank ones left out |
| StreamReducer.JsTrimCutsTheEnds | frontend/src/thread/eventInterpreter.ts:319-323 | only white space at the two ends is cut off a text |
| StreamReducer.TextsAfterAnyInterleaving | frontend/src/thread/ThreadService.ts:634-675 | after any interleaving ids are unique, positions never move and each item's text is its last finished text followed by the deltas after it |
| StreamReducer.UnrelatedEventChangesNothing | frontend/src/thread/eventInterpreter.ts:205-222 | an announcement after the first delta, or any other item's event, can be added to or dropped from the stream anywhere without changing the text an item ends up with |

## Left out

- SaveThread (internal/postgresstore/store.go:162) is an unfenced full-row upsert; the ownership steps are the only writers of the modelled columns.
- Bookkeeping columns such as updated_at, and the check for a zero claimed_at.
- Concurrency inside one actor: each actor operation and each command is atomic, so a lease loss between opening and swapping a session is not modelled.
- A child whose row another worker ended while this worker still holds a session for it.
- Commands of one parent are serial, and child results come from the group's own children with a terminal status.
- ChildBarrier.BarrierStore.HandleChildResult: a completed document warmup leaves the barrier alone; the query it starts instead, and its errors, are not modelled.
- ChildBarrier.BarrierStore.RecoverThread: a thread that is reconciled from its checkpoint ends at the saved status; what the resent request does to the parent is covered by the arbitrary moves of the parent in every run.
- ToolDispatch.StreamUntilTerminal: an event whose writes fail leaves the thread row as it was before the event; a group started just before a failed write of the row is not recorded as dispatched.
- ToolDispatch.Finish: publishing a child's result and releasing its resources once the row is saved are represented by the status and the cleared group only.
- CommandDelivery.AtMostFiveExecutions: assumes that acknowledgements reach the queue; a lost acknowledgement of an exhausted command brings one more delivery, which `CommandDelivery.TransientReply` covers.
- Plainly refused (Nak) errors have no retry bound and no claim is made about them.
- The texts by which an error is classified as transient; classification is an input.
- Identical resend from a checkpoint, which appends the documents block again.
- Citation redelivery, which reserves fresh child ids: one successful start of a citation group is assumed.
- ChildBarrier.SubmittedOnceAndAlike: identical items are not claimed for citation groups, whose items come from remote finalize calls.
- SocketRows.SocketTable.CreateSession: foreign keys and the parent thread id are not modelled.
- WebsocketSession.Session.CloseSession: waiting for the read loop and the error of closing the connection are not modelled; neither are Receive and configuration checks.
- Lost page-read answers cannot be told from failed ones: any failing reply of the document handler is one fault.
- Recovery sweeps' attempt cap, dedupe keys and the choice of threads to rotate: easy members.
- The frontend's thinking indicator, pending-call lists, error notices and history loading.
- NATS, Postgres, OpenAI and OCR clients, HTTP handlers, configuration, logging and the user interface.
