# Verification of the agent backend and its retrieval benchmark

A Dafny model of the parts of the repository whose correctness is not visible from one function body,
with proofs of what they keep, conserve or give back. `dafny verify dfyconfig.toml` checks everything.

* **Sessions.** `SessionProtocol` is `backend/ws/connection.py` as a transition system: the token registry,
  the task records with their connection counts, the grace timers and the session-to-connections sets, with
  every path between two suspension points as one atomic step. `SessionHub` is the same module as a class
  whose fields the operations update in place, each proved to be one step of the system. `TurnOwnership` adds
  the turns that take and give back tokens, `SessionGate` the per-session turn gate over `asyncio.Lock`.
* **Streams.** `EventStream` is the SSE generator, `MessageTurn` the WebSocket message turn, `Streaming` the
  two chunkers.
* **Benchmark.** `RetrievalMetrics` (hit rate, MRR, recall, nDCG, average precision), `TrecFile` (printing and
  reading runs), `QrelsFile` (printing and reading judgements), `Scorers` (both aggregations), `LayerGates`
  (the per-question attribution), `ArticleMarkdown` (the HTML-to-Markdown state machine), `ArticleLines` (the
  same page read as lines of words, which the state machine refines).
* **Configuration.** `DeepMerge`, `McpConfig`, `ModelCatalogue`, `SchemaMigration`.

`Common` holds the option type and a Python dict as its entries in insertion order; `Text` holds `str.strip`,
`str.split` and concatenation. A class method is proved against a function on values (`ensures View() == ...`), and the
properties are lemmas about that function. All lemmas switch automatic induction off, so each proof is the
one written down.

## Choices of the model

* Task ids, tokens and timers are fresh numbers of one counter. Clocks, message production, cancellation,
  failing saves, the number of connections reached and the order in which asyncio runs its tasks are
  parameters or choices of the steps. A failed send is a `DisconnectOp`. A timer cancelled before the event
  loop first runs it never enters its body, so not its `finally` either.
* A turn is an SSE turn, a manual tool run or a message turn; the first two take and give back tokens alike, and
  only an SSE turn cancels its token when its task is cancelled.
* A task may be cancelled wherever it is suspended and something is decided by it: an SSE turn at the gate, in
  the workflow call, in the agent loop, after a team answer and in saving (before or after the row is written
  makes no difference to the stream); a message turn in binding its session, at the gate, in the agent loop, in
  saving before or after the row is written, and in any send. A consumer that leaves closes the SSE stream at a
  yield.
* Scores are exact reals; the discount 1 / log2(i + 2) is any positive, strictly decreasing function; number
  formatting is any function that prints a word and reads back monotonely, so that different scores may read
  back as equal ones. `"\r\n"` counts as two line boundaries, which only adds blank lines that are skipped.
* The gate report is given judgements whose grades are all positive, as `build_qrels_from_questions` makes them
  (always 1); the report takes every judged document as relevant, the metrics only those with a positive grade.
* Reasoning levels and sources of a model payload are given as `strip().lower()` leaves them; a native MCP server
  of an import is given as the server it makes, or as nothing where pydantic rejects it.
* SQLAlchemy's inspector keeps its first answer for a table, and adding a column that is there is an error.
* `asyncio.Lock` is modelled from its documented hand-off: a release wakes the first waiter, a woken waiter
  takes the lock when it runs, a cancelled one passes the wake-up on.

## Where the code differs from what is expected of it

Each of these has a lemma with the exact condition and, where the failure needs a run, a concrete run.

* A turn is out of reach of a stop as soon as a turn that shares its token and cleans up has ended
  (`TurnReachableIff`). That hits a running owner when a WebSocket message turn, which cleans up whatever token
  it got, ends inside it (`EndKeepsOwnersIff`, `MessageTurnTakesTokenAway`), and it hits an SSE turn that
  borrowed its token, such as the second request queued at the gate, when the first one ends
  (`BorrowerLosesToken`). An SSE turn whose task is cancelled cancels every turn that shares its token, the one
  it borrowed it from as well (`InterruptHitsIff`, `BorrowerCancelsOwner`).
* The connection count of a task misses the connections that were there all the time since it was registered
  (`CountIsExactIff`, `CountCanBeTooSmall`), and the end of an interrupted timer can take away the entry of the
  timer that replaced it (`EntryStaysIff`, `EntryOfLiveTimerCanBeLost`).
* A caller that arrives at the gate while nobody holds it and still has to wait, since a caller before it has
  been woken and has not run yet, leaves its count behind for good when it is cancelled (`CountStaysExactIff`,
  `LockCanLeak`); without such cancellations the lock object is always reclaimed (`ReclaimedIff`,
  `OrdinaryUseIsReclaimed`). `release`
  does not ask who calls it: it does harm exactly when somebody else holds the gate (`ReleaseKeepsIff`).
* In a WebSocket turn reasoning overtakes content that waits in the buffer (`TurnOrderIff`), and a turn that
  raises does not flush, so up to nine characters of content are lost (`BrokenTurnLosesWaiting`); the SSE
  stream keeps the order always.
* `summarize` of a run read back from its file leaves out judged queries without documents, which changes the
  mean (`SummaryAfterPrintingIff`); `load_run_trec` reads nothing when the tag is blank (`PrintedRunLoads`);
  judgement grades between 0 and 1 stop being relevant when written (`RelevanceSurvivesIff`).
* The two scorers agree only if queries without a reported type find nothing among their first six
  (`ScorersAgreeIff`); the type blocks of the gate report miss questions of other types (`TypeBlocksCoverIff`).
* An `img` or `input` without an end tag hides the rest of the page (`UnclosedSkipSwallows`,
  `StreamErasureIff`). Text in a `pre` that is never closed, in a cell outside every row, in a row that is never
  closed and in a row whose cells a further `tr` throws away is lost (`CharactersInResult`, `NothingLostIff`,
  `CellOutsideRowIsDropped`). The internal mark of a heading, a digit and an `H` between two NULs, is written out
  when anything flushes or another heading ends before the heading does, as in `<h1><p>Title</p></h1>`
  (`MarksLeakIff`, `ParagraphInHeadingLeaks`). The blank-line loop of `result()` never has anything to do
  (`ResultIsJoin`).
* Merging settings is associative only when no dict is hidden by a leaf and then shows again
  (`AssociativeIff`); MCP export loses servers whose names collide, and six fields of
  every server (`ExportLength`, `RoundTripIff`, `WholeRoundTripIff`), and a native
  import can bring an id in twice (`MergeKeeps`, `NativeImportCanRepeat`); a deleted model that is the
  provider's legacy model is back after the next start or the next addition (`StaysAwayIff`,
  `DeletedLegacyReturns`); the schema migration fails when two entries ask for the same missing column
  (`Connection.ApplyMigrations`).
* The comment on average precision names the denominator min(|rel|, k); the code takes min(|rel|, length of
  the cut list), and so does the model. The comment in `disconnect` says timers are scheduled outside the
  lock; no suspension lies between, so unbinding and scheduling are one step.

## Model

| member | source | states |
|---|---|---|
| SessionProtocol.StepKeepsInv | backend/ws/connection.py:32-372 | every step keeps: registry and task table agree, no connection set is empty, counts never exceed the sets, and the count of a task with a live timer is exact |
| SessionProtocol.RunKeepsInv | backend/ws/connection.py:32-372 | the same over every run, in any interleaving |
| SessionProtocol.TimerCancelsIffAbandoned | backend/ws/connection.py:160-184 | a timer step cancels a token exactly when it is past its sleep, not interrupted, its task is still current and no connection is bound, and then it cancels that task's token |
| SessionProtocol.GraceTimerSafety | backend/ws/connection.py:139-187 | in every run a delayed cancellation only hits the token of the task it was armed for, while its session has no connection |
| SessionProtocol.RegistryAgreesOnEveryRun | backend/ws/connection.py:41-60 | in every reachable state tokens and tasks have the same sessions and tokens, and no set is empty |
| SessionProtocol.LastDisconnectDooms | backend/ws/connection.py:333-350 | when the last connection of a session leaves, its current task is cancelled already or has an armed timer |
| SessionProtocol.StepKeepsDoomed | backend/ws/connection.py:139-208 | no step but a bind to that session takes this away while the task stays current, rescheduling the same key included |
| SessionProtocol.NoLostGraceTimer | backend/ws/connection.py:139-187 | through any continuation without a new bind the task is cancelled or has a live uninterrupted timer, and every such timer cancels it when its sleep ends |
| SessionProtocol.GoneStaysGoneOnRuns | backend/ws/connection.py:165-169 | a task replaced or removed is never current again |
| SessionProtocol.DisconnectForgets | backend/ws/connection.py:325-350 | after a disconnect the connection is in no session set and not in the connection table; no other binding changes |
| SessionProtocol.CountCanBeTooSmall | backend/ws/connection.py:53-57 | a bind before the task exists is never counted, so the count is only a lower bound |
| SessionProtocol.CountIsExactIff | backend/ws/connection.py:53-57 | in every reachable state the count is the number of connections above the fewest the session has had since its task was registered, so exact if and only if it was once without any |
| SessionProtocol.EntryOfLiveTimerCanBeLost | backend/ws/connection.py:182-184 | a run from the start in which the late `finally` of an interrupted timer removes the entry of the armed timer that replaced it |
| SessionProtocol.EntryStaysIff | backend/ws/connection.py:182-184 | while a timer stays armed, a step takes its entry away exactly when it ends another timer of the same session and task |
| SessionProtocol.GetTokenDoes | backend/ws/connection.py:32-60 | taking a token leaves the session with one that is not cancelled: the registered one, or a new one with a new task that nobody counts for |
| SessionProtocol.CleanupDoes | backend/ws/connection.py:123-136 | the registration goes if the named token is the registered one or none is named, and nothing else |
| SessionProtocol.StopDoes | backend/ws/connection.py:107-120 | a stop cancels the registered token and nothing else |
| SessionProtocol.BindDoes | backend/ws/connection.py:352-372 | a connection joins the set of its session; if it is new there it is counted and the timer its entry names is interrupted and the entry dropped |
| SessionProtocol.TimerStepDoes | backend/ws/connection.py:160-184 | a run of a timer leaves it alive exactly if it was neither started nor interrupted, and then started; every other timer is as it was, and the entry of its key goes exactly when it was past its start |
| SessionProtocol.TimerRunsAtMost | backend/ws/connection.py:160-184 | in any run an ended timer is never live again, and a timer runs at most as often as its state allows |
| SessionProtocol.TimerRunsTwice | backend/ws/connection.py:160-184 | so from the start every timer runs at most twice |
| SessionProtocol.CalledOffTimerIsHarmless | backend/ws/connection.py:179-184 | an interrupted timer cancels nothing and is over when it runs |
| SessionProtocol.DisconnectDoes | backend/ws/connection.py:333-350 | every session of the connection counts one less, not below 0; a session with a task that loses its only connection gets a new timer named by its entry; all other entries stay |
| SessionProtocol.DisconnectInterruptsIff | backend/ws/connection.py:148-158 | of the timers there were, exactly those are interrupted that the entries of such sessions named |
| SessionProtocol.DisconnectArmsOnly | backend/ws/connection.py:148-187 | every timer that is new belongs to such a session |
| SessionHub.ConnectionHub.GetCancelToken | backend/ws/connection.py:32-60 | is the protocol's step; the token returned is registered and not cancelled |
| SessionHub.ConnectionHub.AcquireCancelToken | backend/ws/connection.py:63-70 | the same; `created` exactly when the token is new, and nothing changes otherwise |
| SessionHub.ConnectionHub.IncrementConnectionCount | backend/ws/connection.py:73-87 | adds one to the session's task and nothing else; 0 without a task |
| SessionHub.ConnectionHub.DecrementConnectionCount | backend/ws/connection.py:90-104 | takes one off, not below 0 |
| SessionHub.ConnectionHub.CancelSession | backend/ws/connection.py:107-120 | is the protocol's step and tells whether a token was registered |
| SessionHub.ConnectionHub.CleanupCancelToken | backend/ws/connection.py:123-136 | is the protocol's step |
| SessionHub.ConnectionHub.ScheduleDelayedCancellation | backend/ws/connection.py:148-187 | interrupts the timer of the key and arms a new one |
| SessionHub.ConnectionHub.CancelDelayedCancellation | backend/ws/connection.py:190-208 | interrupts the timer its entry names and drops the entry |
| SessionHub.ConnectionHub.RunTimer | backend/ws/connection.py:160-184 | one run of the timer task is the protocol's timer step |
| SessionHub.ConnectionHub.BindSession | backend/ws/connection.py:352-372 | is the protocol's bind step |
| SessionHub.ConnectionHub.UnbindEverywhere | backend/ws/connection.py:333-346 | the loop over the sessions does at once what the protocol's unbind says, and finds the sessions to check, in iteration order |
| SessionHub.ConnectionHub.Disconnect | backend/ws/connection.py:325-350 | is the protocol's disconnect step for the order it visited the sessions in |
| TurnOwnership.EndKeepsOwnersIff | backend/ws/events.py:571-572 | an ending turn leaves every live owner registered if and only if it is not a message turn sharing an owned token |
| TurnOwnership.EndRemovesOnlyItsToken | backend/ws/connection.py:131-136 | an ending turn removes a registration exactly if it is its own token and it created it or is a message turn |
| TurnOwnership.RunKeepsOwners | backend/ws/connection.py:63-70 | ownership is kept over runs in which no message turn takes an owned token away |
| TurnOwnership.RunKeepsOwnersIff | backend/ws/events.py:571-572 | owners are registered all along a run if and only if no message turn in it takes an owned token away |
| TurnOwnership.OwnersReachableOnRuns | backend/ws/connection.py:107-136 | in such runs each uncancelled owner is the registered one, a stop cancels its token, and a session has at most one |
| TurnOwnership.AcquiringOwnersReachable | backend/api/chat/stream.py:169-169 | with SSE turns and manual tool runs alone, those that created their token are registered, reached by a stop, and one per session |
| TurnOwnership.TurnReachableIff | backend/ws/connection.py:107-136 | a turn of any kind whose token is not cancelled is registered, and reached by a stop, if and only if no turn sharing its token that cleans up has ended since it began |
| TurnOwnership.BorrowerLosesToken | backend/api/chat/stream.py:381-388 | two SSE turns suffice: when the one that created the token ends, a stop no longer reaches the other |
| TurnOwnership.InterruptHitsIff | backend/api/chat/stream.py:369-371 | the cancellation of an SSE turn's task cancels another running turn if and only if the two share the token |
| TurnOwnership.BorrowerCancelsOwner | backend/api/chat/stream.py:369-388 | a cancelled turn that borrowed its token cancels the turn that created it |
| TurnOwnership.MessageTurnTakesTokenAway | backend/ws/events.py:402-404 | a message turn that starts and ends inside another turn leaves that turn unregistered; stopping the session does nothing |
| TurnOwnership.TurnDesk.BeginAcquiring | backend/ws/events.py:595-595 | opening an SSE turn or a tool run is the system's step |
| TurnOwnership.TurnDesk.BeginMessage | backend/ws/events.py:402-404 | opening a message turn is the system's step |
| TurnOwnership.TurnDesk.EndTurn | backend/api/chat/stream.py:381-388 | closing any turn is the system's step |
| TurnOwnership.TurnDesk.InterruptTurn | backend/api/chat/stream.py:369-388 | cancelling an SSE turn is the system's step |
| SessionGate.GateRunKeeps | backend/modules/agent/session_gate.py:52-138 | the gate's invariant over every run: one holder, queue in arrival order, no caller on a discarded lock, count at least the callers inside |
| SessionGate.OneTurnAtATimeInOrder | backend/modules/agent/session_gate.py:27-31 | in every run at most one turn holds the gate and turns are let through in arrival order |
| SessionGate.NobodyIsOvertaken | backend/modules/agent/session_gate.py:76-89 | whoever is let through passes no waiting caller that arrived earlier |
| SessionGate.FreeGateMovesOn | backend/modules/agent/session_gate.py:118-127 | a free gate with callers parked is never stuck |
| SessionGate.CountStaysExactIff | backend/modules/agent/session_gate.py:69-93 | on every run a step makes the waiter count wrong exactly when a cancelled caller unwinds that arrived while nobody held the gate |
| SessionGate.SurplusOnRuns | backend/modules/agent/session_gate.py:69-93 | the surplus of the count never shrinks along a run, and stays zero exactly when all callers that unwound had arrived while the gate was held |
| SessionGate.ReclaimedIff | backend/modules/agent/session_gate.py:129-138 | lock and count of a session nobody uses are gone from the dictionaries exactly on those runs |
| SessionGate.OrdinaryUseIsReclaimed | backend/modules/agent/session_gate.py:129-138 | in particular when every caller that has to wait arrives while the gate is held, whoever is cancelled and whenever |
| SessionGate.ArriveDoes | backend/modules/agent/session_gate.py:64-89 | an arriving caller is counted, and let in at once exactly if nobody holds the gate and everybody queued is cancelled; otherwise it waits behind all others |
| SessionGate.ResumeDoes | backend/modules/agent/session_gate.py:88-98 | a woken caller that runs was the first in the queue and holds the gate |
| SessionGate.UnwindDoes | backend/modules/agent/session_gate.py:87-93 | a cancelled caller leaves the queue, and the next is woken if nobody holds the gate |
| SessionGate.ReleaseDoes | backend/modules/agent/session_gate.py:118-127 | the holder's release frees the gate and wakes the first one that waits |
| SessionGate.ReleaseAtAnyTime | backend/modules/agent/session_gate.py:118-127 | after a release by anybody its caller no longer holds the gate, and a gate that is free stays as it is |
| SessionGate.ReclaimDoes | backend/modules/agent/session_gate.py:129-138 | lock and count go exactly if nobody is counted and nobody holds the gate |
| SessionGate.HolderIsLastGranted | backend/modules/agent/session_gate.py:76-98 | in every run whoever holds the gate is the one let through last |
| SessionGate.LockCanLeak | backend/modules/agent/session_gate.py:71-74 | a run after which everybody has left and the lock stays |
| SessionGate.ReleaseKeepsIff | backend/modules/agent/session_gate.py:118-127 | a release keeps the invariant if and only if its caller holds the gate or nobody does |
| SessionGate.SessionTurnGate.AcquireStart | backend/modules/agent/session_gate.py:64-89 | `acquire` up to its end or first suspension is the step of its session and leaves the others alone |
| SessionGate.SessionTurnGate.AcquireResume | backend/modules/agent/session_gate.py:88-98 | a woken caller's rest of `acquire` is the step of its session |
| SessionGate.SessionTurnGate.AcquireCancelled | backend/modules/agent/session_gate.py:90-93 | a cancelled caller's unwinding is the step of its session |
| SessionGate.SessionTurnGate.Release | backend/modules/agent/session_gate.py:118-127 | `release`, by anybody, is the step of its session |
| SessionGate.SessionTurnGate.ReclaimIfIdle | backend/modules/agent/session_gate.py:129-138 | drops lock and count exactly when nobody counts and nobody holds |
| EventStream.DoneIsLast | backend/api/chat/stream.py:160-388 | `done` occurs at most once, last, and in no stream with an error or tool progress; also when the consumer leaves early |
| EventStream.HowStreamsEnd | backend/api/chat/stream.py:361-380 | a stream its consumer stays with ends in `done` or an error unless it is cancelled or the workflow did not succeed; a cancelled one has no `done` |
| EventStream.VisibleConservesText | backend/api/chat/stream.py:274-311 | the events carry exactly the content and the reasoning produced, in order |
| EventStream.EventOfEach | backend/api/chat/stream.py:274-311 | every content chunk, even an empty one, has its message in its place, and every reasoning that is not empty its event |
| EventStream.NormalAgentStream | backend/api/chat/stream.py:264-368 | a normal agent stream is start, every production in order, the reasoning-only answer repeated if there is no content, and `done`, which names a stored message exactly if there was one to store |
| EventStream.AgentShows | backend/api/chat/stream.py:264-368 | what an agent stream shows for every ending and saving: broken off, the productions up to the last content chunk, and the error if it raised; finished, all of them, the reasoning-only answer repeated, and then `done` or how the saving failed |
| EventStream.TeamTextShows | backend/api/chat/stream.py:205-262 | a fixed team text is shown as the message, as it is, and then closed |
| EventStream.WorkflowShows | backend/api/chat/stream.py:205-262 | a workflow run directly shows its display text: as the message if it succeeded, as tool progress while it runs, otherwise as the error, with the warning in front if its outcome is unknown |
| EventStream.TeamBreaks | backend/api/chat/stream.py:374-380 | a team that raises shows its error alone, a cancelled one nothing |
| EventStream.TeamStreams | backend/api/chat/stream.py:205-262 | so a team's stream carries exactly that text or no message at all, shows tool progress exactly while the operation runs, and `done` names a stored message exactly if the text was not blank and the saving returned |
| EventStream.ConsumerSees | backend/api/chat/stream.py:160-388 | nothing is sent without the gate, and a consumer that leaves after its k-th event has seen exactly the first k |
| EventStream.ContentIsKept | backend/api/chat/stream.py:291-301 | a content chunk and everything produced before it is part of what a stream that breaks off sends |
| EventStream.SseTurn.Drain | backend/api/chat/stream.py:306-311 | sends the queued reasoning oldest first and empties the queue |
| EventStream.SseTurn.SendChunk | backend/api/chat/stream.py:291-304 | queued reasoning goes out before the chunk |
| EventStream.SseTurn.RunChunks | backend/api/chat/stream.py:280-304 | what is sent is the productions up to the last content; what is queued is the rest |
| EventStream.SseTurn.Close | backend/api/chat/stream.py:313-367 | saving and finishing send exactly the closing events, also where the repeated answer or the saving is the end |
| EventStream.SseTurn.Run | backend/api/chat/stream.py:160-388 | the whole generator sends the full trace up to where the consumer left; on every exit the gate is free and was held iff obtained, the token is cleaned up iff created, and cancelled iff the turn was cancelled before the consumer left |
| MessageTurn.TurnEndsOnce | backend/ws/events.py:384-572 | one error or one completion, as the last message, and none exactly when the task was cancelled, at a pause or in a send up to that message |
| MessageTurn.CutTurnSendsPrefix | backend/ws/events.py:384-572 | a turn cancelled in a send has sent exactly the messages up to that one of what it would have sent |
| MessageTurn.LoopConserves | backend/ws/events.py:511-541 | messages sent plus the buffer carry exactly the content produced, with the marker in the place of the chunk that found the token cancelled; reasoning arrives in full |
| MessageTurn.LoopCounts | backend/ws/streaming.py:166-184 | through the whole loop the handler counts exactly the characters that reached a connection |
| MessageTurn.TurnDelivers | backend/ws/events.py:511-554 | a turn that gets through delivers all of it, and the reasoning once more as content if there was no visible content |
| MessageTurn.BrokenTurnLosesWaiting | backend/ws/events.py:556-572 | a turn that breaks off loses exactly the content produced since the last flush, fewer than ten characters, so nothing if and only if none is waiting |
| MessageTurn.StoredAgainstDelivered | backend/ws/events.py:305-334 | what is stored is what was delivered, stripped; after a stop the content before the marker; for reasoning-only answers the text sent last |
| MessageTurn.StoredIff | backend/ws/events.py:305-358 | a turn that sends its completion stored an answer exactly if content or reasoning is not blank; one that ends otherwise exactly if its saving had returned before |
| MessageTurn.TurnCompletesIff | backend/ws/events.py:374-572 | told from the items and the saving alone: the completion comes last exactly if the loop gets through and, where there is an answer, it is saved to the end |
| MessageTurn.TurnFailsIff | backend/ws/events.py:374-572 | and the processing error exactly if binding, preparing, the loop or the saving raises |
| MessageTurn.SetupFailsIff | backend/ws/events.py:384-488 | and each other error code exactly for its own failure before the agent runs |
| MessageTurn.LoopOrderIff | backend/ws/events.py:494-541 | messages keep the order of production if and only if no reasoning is produced while content waits, told from the items alone |
| MessageTurn.TurnOrderIff | backend/ws/events.py:494-554 | the same for a whole turn, with the repeated reasoning at the end where there is one |
| MessageTurn.ReasoningCanOvertake | backend/ws/events.py:494-496 | two items suffice for the wrong order |
| MessageTurn.MessageHandler.Loop | backend/ws/events.py:511-534 | the loop over the chunks computes the flow the lemmas speak about |
| MessageTurn.MessageHandler.Persist | backend/ws/events.py:292-358 | saving the answer stores it and sends the fallback and the completion |
| MessageTurn.MessageHandler.Run | backend/ws/events.py:374-572 | the handler sends and stores exactly that; it ends cancelled exactly at the pauses and sends that are cancelled; the gate is taken iff reached, the token iff the message is valid and the session bound, and neither is kept on any exit |
| Streaming.BufferingIsConcatenation | backend/ws/streaming.py:149-184 | after any writes and flushes, chunks sent followed by the buffer are the text written, and the buffer is shorter than its size |
| Streaming.WriteDoes | backend/ws/streaming.py:149-184 | a write sends nothing exactly if the buffer stays short and no flush is due, and otherwise all there is as one chunk; only what reaches a connection is counted |
| Streaming.PiecesCutUp | backend/ws/streaming.py:57-60 | the chunks concatenate to the text, all of full size but the last, and as few as possible |
| Streaming.TextChunksSizes | backend/ws/streaming.py:51-74 | whatever the chunk size, the chunks concatenate to the text and none is empty; for a positive size all but the last have it, otherwise there is one chunk |
| Streaming.BufferedStreamingHandler.Write | backend/ws/streaming.py:149-164 | extends the stream by the text and keeps the buffer short |
| Streaming.BufferedStreamingHandler.Flush | backend/ws/streaming.py:166-184 | empties the buffer, keeps the stream, and reports the connections reached |
| Streaming.BufferedStreamingHandler.StreamIterator | backend/ws/streaming.py:186-200 | all items are sent and the buffer is empty, whether the iterator ends or raises after them |
| Streaming.StreamingResponseHandler.StreamText | backend/ws/streaming.py:42-79 | sends the chunks of the text; counts those that reached a connection |
| Streaming.StreamingResponseHandler.StreamIterator | backend/ws/streaming.py:81-105 | sends every chunk that is not empty, so all the text |
| RetrievalMetrics.MetricAtSingle | rag-bench/scripts/l1_eval.py:449-484 | the loops compute the metric the lemmas speak about; None is the NotImplementedError |
| RetrievalMetrics.HitRateMeaning | rag-bench/scripts/l1_eval.py:461-462 | hit rate is one exactly if a relevant document is in the cut list |
| RetrievalMetrics.MrrMeaning | rag-bench/scripts/l1_eval.py:463-467 | MRR is the inverse of the first relevant place, or zero |
| RetrievalMetrics.RecallMeaning | rag-bench/scripts/l1_eval.py:468-469 | recall times the number of relevant documents is the number found, and zero without any |
| RetrievalMetrics.NdcgMeaning | rag-bench/scripts/l1_eval.py:470-474 | nDCG times the ideal is the sum of the discounts at the relevant places |
| RetrievalMetrics.MapMeaning | rag-bench/scripts/l1_eval.py:475-483 | average precision times min(relevant, length) is the sum of the precisions at the relevant places |
| RetrievalMetrics.MetricLooksAtCut | rag-bench/scripts/l1_eval.py:449-484 | a metric looks at the cut list alone, and exactly an unknown name has no value |
| RetrievalMetrics.HitsBound | rag-bench/scripts/l1_eval.py:468-469 | hits in the cut list of distinct documents are at most min(relevant, length) |
| RetrievalMetrics.DcgBound | rag-bench/scripts/l1_eval.py:470-474 | the DCG is at most the ideal of its hits, with equality exactly when the hits come first |
| RetrievalMetrics.ApBound | rag-bench/scripts/l1_eval.py:475-483 | the precision sum is at most the number of hits, with equality exactly when the hits come first |
| RetrievalMetrics.MetricsInUnitInterval | rag-bench/scripts/l1_eval.py:449-484 | every metric of every ranking of distinct documents lies in [0, 1], for every k and relevant set |
| RetrievalMetrics.PerfectScoreIff | rag-bench/scripts/l1_eval.py:470-483 | nDCG is 1 iff AP is 1 iff relevant documents fill the first min(relevant, length) places |
| RetrievalMetrics.HitsPromoted | rag-bench/scripts/l1_eval.py:468-469 | a promotion changes the hits only for the cut between the two places |
| RetrievalMetrics.DcgPromoted | rag-bench/scripts/l1_eval.py:470-471 | by how much a promotion raises the DCG |
| RetrievalMetrics.ApPromoted | rag-bench/scripts/l1_eval.py:477-481 | by how much a promotion raises the precision sum |
| RetrievalMetrics.PromotionNeverLowers | rag-bench/scripts/l1_eval.py:449-484 | swapping an irrelevant document with the relevant one below it lowers no metric, also across the cut |
| TrecFile.SortIsStable | rag-bench/scripts/l1_eval.py:487-489 | the ranking is the same entries in descending order, equal scores in the order they had |
| TrecFile.StableOrderIsUnique | rag-bench/scripts/l1_eval.py:487-489 | only one arrangement is descending with that order among equals |
| TrecFile.SortOfDescending | rag-bench/scripts/l1_eval.py:487-489 | a descending list is left as it is, ties included |
| TrecFile.ParseTrecPlain | rag-bench/scripts/l1_eval.py:70-87 | the loop reads the file line by line; None is the ValueError |
| TrecFile.LinesOfText | rag-bench/scripts/l1_eval.py:70-87 | a text is its lines up to each line break and what follows the last unless it is empty |
| TrecFile.LoadRunTrec | rag-bench/scripts/report_layer_gates.py:44-52 | the loop collects documents by query in file order |
| TrecFile.ReadFailsIff | rag-bench/scripts/l1_eval.py:70-87 | reading raises exactly if a line with enough fields has a score or grade that is no number |
| TrecFile.SaveRunTrec | rag-bench/scripts/l1_eval.py:372-386 | the two loops print the ranked documents of every query |
| TrecFile.PrintedLineAt | rag-bench/scripts/l1_eval.py:372-386 | the i-th document of a query is on its line with rank i + 1, behind the lines of the queries before |
| TrecFile.DecimalNames | rag-bench/scripts/l1_eval.py:372-386 | the rank a line prints is the number it stands for, in digits without a leading zero |
| TrecFile.PrintedRunReadsBack | rag-bench/scripts/l1_eval.py:70-87 | reading a printed run gives each query with documents its documents in ranked order with the scores as printed |
| TrecFile.PrintedRunLoads | rag-bench/scripts/report_layer_gates.py:44-52 | the gate reader reads the rankings of the same file, or nothing for a blank tag |
| TrecFile.RankingSurvivesPrinting | rag-bench/scripts/l1_eval.py:372-386 | every query with documents has the same ranking after printing and reading, even where rounding makes ties; others are gone |
| TrecFile.ReadersAgree | rag-bench/scripts/report_layer_gates.py:44-52 | both readers give the same ranking for every query |
| QrelsFile.WriteQrelsTrec | rag-bench/scripts/l1_eval.py:256-263 | prints one line per judgement |
| QrelsFile.WrittenQrelsReadBack | rag-bench/scripts/l1_eval.py:256-263 | reading them back gives every pair its grade cut to an integer, and no other pair |
| QrelsFile.RelevanceSurvivesIff | rag-bench/scripts/l1_eval.py:507-507 | the relevant sets are the same afterwards if and only if no grade lies strictly between 0 and 1 |
| Scorers.Summarize | rag-bench/scripts/l1_eval.py:492-512 | the mean over the common queries, in whatever order they are visited |
| Scorers.TypeSummary | rag-bench/scripts/l1_eval.py:400-416 | count and means of hit rate and MRR at 6 over the queries of a type |
| Scorers.SumSameQueries | rag-bench/scripts/l1_eval.py:503-510 | the sum does not depend on the order of the queries |
| Scorers.TypeSumsIsSumOfQueries | rag-bench/scripts/l1_eval.py:398-412 | summing by type counts every query of a listed type once |
| Scorers.ScorersDiffer | rag-bench/scripts/l1_eval.py:390-417 | the two sums differ by the scores of common queries without a listed type |
| Scorers.ScoreIsZeroIff | rag-bench/scripts/l1_eval.py:461-467 | hit rate and MRR at 6 are zero exactly when no relevant document is among the first six |
| Scorers.ScorersAgreeIff | rag-bench/scripts/l1_eval.py:390-417 | the two scorers agree if and only if no common query without a reported type has a relevant document among its first six |
| Scorers.ScoresSurvivePrinting | rag-bench/scripts/l1_eval.py:372-386 | every metric of every query is the same for the run read back from its file |
| Scorers.SummaryAfterPrintingIff | rag-bench/scripts/l1_eval.py:492-512 | the sum is the same too; the mean exactly if it is zero or every judged query of the run has documents |
| LayerGates.ClassifyAll | rag-bench/scripts/report_layer_gates.py:76-87 | one row per question with its id and its type, or the KeyError of a question without a type; no gap exactly for hits |
| LayerGates.ClassificationMeaning | rag-bench/scripts/report_layer_gates.py:83-85 | hit is hit_rate@6 = 1, recall gap is hit_rate@50 = 0, rank gap is the rest |
| LayerGates.GatesAgreeWithMetrics | rag-bench/scripts/report_layer_gates.py:78-86 | any question, in the run or not, read from the printed file hits exactly when its hit_rate@6 is 1 |
| LayerGates.AddBlock | rag-bench/scripts/report_layer_gates.py:101-115 | n is hits plus recall gaps plus rank gaps; empty blocks are not printed |
| LayerGates.CountsArePlaces | rag-bench/scripts/report_layer_gates.py:101-110 | the counts are the numbers of questions that are hits or have that gap |
| LayerGates.TypeBlockAddsUp | rag-bench/scripts/report_layer_gates.py:101-119 | so does the block of every type |
| LayerGates.TypeBlocksCoverIff | rag-bench/scripts/report_layer_gates.py:117-119 | the type blocks cover the whole exactly when every question has a reported type |
| ArticleMarkdown.SkippedDocument | rag-bench/scripts/fetch_corpus.py:99-104 | inside a skipped element a document changes nothing |
| ArticleMarkdown.SkipTags | rag-bench/scripts/fetch_corpus.py:52-52 | which tags open and close a skipped region, by name |
| ArticleMarkdown.SkipErasure | rag-bench/scripts/fetch_corpus.py:99-177 | a balanced document and the one with its skipped elements erased leave the same state |
| ArticleMarkdown.SkipErasureOfOutput | rag-bench/scripts/fetch_corpus.py:179-191 | and give the same output |
| ArticleMarkdown.StreamErasureIff | rag-bench/scripts/fetch_corpus.py:99-177 | for an arbitrary tag stream erasure is exact if and only if no skipped region is open at the end |
| ArticleMarkdown.UnclosedSkipSwallows | rag-bench/scripts/fetch_corpus.py:52-52 | a skipped tag that is never closed hides everything after it |
| ArticleMarkdown.ParagraphAddsLine | rag-bench/scripts/fetch_corpus.py:82-90 | a flushed paragraph adds one line with exactly the visible characters of the buffered text behind quote and bullet, none for blank text |
| ArticleMarkdown.LinesNeverBlank | rag-bench/scripts/fetch_corpus.py:82-174 | whatever tags and text come, no line is ever blank |
| ArticleMarkdown.ResultIsJoin | rag-bench/scripts/fetch_corpus.py:179-191 | so the blank-line loop changes nothing and the output is the plain join of the lines |
| ArticleMarkdown.CharactersInResult | rag-bench/scripts/fetch_corpus.py:82-191 | a character the converter does not write itself occurs in the output exactly as often as in the text outside skipped regions whose code block, cell and row are closed by later tags, and in the heading marks that leak |
| ArticleMarkdown.NothingLostIff | rag-bench/scripts/fetch_corpus.py:82-191 | the text outside skipped regions and the leaked marks are all there if and only if all text with the character is so closed; never is there more |
| ArticleMarkdown.MarksLeakIff | rag-bench/scripts/fetch_corpus.py:110-112 | told from the tags alone: the mark of a heading shows in the output if and only if a flush, the end of another heading or the end of the input comes before the next end tag of its level; the number of NULs is twice the number of such marks |
| ArticleMarkdown.ParagraphInHeadingLeaks | rag-bench/scripts/fetch_corpus.py:113-115 | a paragraph inside a heading of any level and title leaves both NULs of the mark in the output |
| ArticleMarkdown.ForgedMarkIsDropped | rag-bench/scripts/fetch_corpus.py:146-152 | text that spells the mark is taken out of its heading, which is why the text must have no NUL |
| ArticleMarkdown.CellOutsideRowIsDropped | rag-bench/scripts/fetch_corpus.py:92-96 | a cell outside every row leaves the parser as it was |
| ArticleMarkdown.ArticleToMarkdown.HandleStartTag | rag-bench/scripts/fetch_corpus.py:99-133 | the handler is the parser's step for a start tag |
| ArticleMarkdown.ArticleToMarkdown.HandleEndTag | rag-bench/scripts/fetch_corpus.py:135-174 | the handler is the parser's step for an end tag |
| ArticleMarkdown.ArticleToMarkdown.HandleData | rag-bench/scripts/fetch_corpus.py:176-177 | the handler is the parser's step for text |
| ArticleMarkdown.ArticleToMarkdown.GetResult | rag-bench/scripts/fetch_corpus.py:179-191 | the text of the squeezed lines |
| ArticleMarkdown.ExtractMarkdown | rag-bench/scripts/fetch_corpus.py:198-200 | a fresh parser fed the callbacks gives the result the lemmas speak about, a join of lines none of which is blank |
| ArticleLines.TidyIsWords | rag-bench/scripts/fetch_corpus.py:83-83 | collapsing the whitespace of a text and stripping it leaves its words with single spaces between them |
| ArticleLines.WordsSurvive | rag-bench/scripts/fetch_corpus.py:83-83 | collapsing keeps the words of a text and leaves no whitespace but single blanks |
| ArticleLines.OutputIsReading | rag-bench/scripts/fetch_corpus.py:82-191 | for text without NUL the output is the rendering of the page read as lines of words: every paragraph, heading and cell is its words with single spaces behind its quote, bullet or level |
| ArticleLines.WordsInOrder | rag-bench/scripts/fetch_corpus.py:82-174 | no word of paragraphs and headings is lost, joined to another or moved: in order they are the words of the page's running text |
| ArticleLines.TableWordsInOrder | rag-bench/scripts/fetch_corpus.py:92-174 | and those of the rows are the words of the text in cells that end in a row that is closed |
| ArticleMarkdown.StartEndsParagraphIff | rag-bench/scripts/fetch_corpus.py:99-133 | which start tags end a running paragraph, by name |
| ArticleMarkdown.EndTakesTextIff | rag-bench/scripts/fetch_corpus.py:135-174 | which end tags take the running text, by name |
| DeepMerge.DeepMerge | backend/api/settings/transfer.py:26-43 | copy and loop on dict objects compute the merge; no dict that was there is changed; the result has new dicts where two dicts meet and shares everything else with the inputs |
| DeepMerge.EmptyIsIdentity | backend/api/settings/transfer.py:26-43 | the empty dict is an identity on both sides |
| DeepMerge.MergeTwiceIsOnce | backend/api/settings/transfer.py:26-43 | merging the same update twice is merging it once |
| DeepMerge.UntouchedPathsKeep | backend/api/settings/transfer.py:37-43 | paths the update does not touch keep the base's value |
| DeepMerge.LeavesOfMerge | backend/api/settings/transfer.py:38-43 | the leaves are exactly the update's and the base's untouched ones |
| DeepMerge.CoveredIff | backend/api/settings/transfer.py:38-43 | the merge is the update itself exactly when the update covers the base |
| DeepMerge.AssociativeIff | backend/api/settings/transfer.py:38-43 | both groupings agree if and only if no dict is hidden by a leaf and shows again |
| DeepMerge.AssociativeWhenPositionsAgree | backend/api/settings/transfer.py:38-43 | in particular when dict and leaf positions agree |
| DeepMerge.NotAlwaysAssociative | backend/api/settings/transfer.py:39-42 | three configurations for which they differ |
| McpConfig.ToClaudeDesktopFormat | backend/api/mcp.py:60-80 | the loop exports the servers one after the other |
| McpConfig.ParseClaudeDesktopFormat | backend/api/mcp.py:21-57 | the loop reads the entries that are objects, enabled as in the registry, and raises where a timeout is out of range |
| McpConfig.ImportedFields | backend/api/mcp.py:36-55 | each field is the value given, the newer name of two winning, or the default |
| McpConfig.ImportedEnabledIff | backend/api/mcp.py:21-36 | an imported server is disabled exactly if the registry's last server of that key is |
| McpConfig.ClaudeIncomingIff | backend/api/mcp.py:284-291 | an import of a Claude document raises exactly for an entry with a timeout out of range, and otherwise brings the servers read from it |
| McpConfig.ServersOfObjects | backend/api/mcp.py:36-57 | one server for each entry that is an object, in their order |
| McpConfig.NativeIncomingIff | backend/api/mcp.py:292-293 | a native import raises exactly for a rejected server, and otherwise brings every server in order |
| McpConfig.ExportedFields | backend/api/mcp.py:60-80 | an export writes each field unless it is empty or has its default, and no other |
| McpConfig.LastOfNameIsWritten | backend/api/mcp.py:60-80 | of servers with one export name the last one is written |
| McpConfig.ImportConfig | backend/api/mcp.py:279-305 | the new registry for either format, merged or replaced; nothing changes without servers or when one is rejected |
| McpConfig.ExportLength | backend/api/mcp.py:60-80 | export keeps all servers, in order, exactly when their names are distinct |
| McpConfig.RoundTripIff | backend/api/mcp.py:21-80 | export then import gives servers with the same exchanged fields in the same order iff ids equal names, names are distinct and not empty, and no tool list is empty |
| McpConfig.WholeRoundTripIff | backend/api/mcp.py:21-80 | the very same registry returns iff, besides, every field the export drops has the value an import gives it |
| McpConfig.ExportIsAccepted | backend/modules/config/schema.py:507-508 | what a registry exports is never rejected when it is read back |
| McpConfig.MergeKeeps | backend/api/mcp.py:296-303 | merging any servers keeps the old list in front, covers every server by id or name, is a no-op when repeated, and keeps ids unique if and only if the servers it adds have different ids |
| McpConfig.MergeImportKeeps | backend/api/mcp.py:298-303 | a Claude document always does, and every server of it is there by its id |
| McpConfig.NativeImportCanRepeat | backend/api/mcp.py:288-301 | two native servers of one new id both end up in the registry |
| ModelCatalogue.AddKeeps | backend/api/settings/provider_models.py:154-176 | adding leaves every entry in place with its settings, levels and source, keeps ids unique, and puts exactly the payloads' non-blank ids beside the old ones |
| ModelCatalogue.AddDoes | backend/api/settings/provider_models.py:154-178 | an addition leaves the list of all payloads in front, behind it at most the legacy and the selected model, and changes nothing else |
| ModelCatalogue.NewModelIsFilled | backend/api/settings/provider_models.py:154-176 | a new model is switched by the first payload that names it, takes each field from the first of them that gives it, and its source from its own name for it, else the batch's, else `manual` |
| ModelCatalogue.KnownModelIsFilled | backend/api/settings/provider_models.py:165-176 | a model that is there keeps what it has and gets each field it lacks from the first payload that gives it |
| ModelCatalogue.NormalizeReasoningLevels | backend/api/settings/provider_models.py:331-342 | the levels that are not empty, each once, in the order of their first places |
| ModelCatalogue.MigrationKeeps | backend/modules/config/schema.py:632-641 | the migration keeps every entry and adds exactly the legacy model and the selected one |
| ModelCatalogue.MigratedTwice | backend/modules/config/schema.py:632-641 | migrating twice is migrating once |
| ModelCatalogue.ReorderDoes | backend/api/settings/provider_models.py:197-211 | a permutation with the listed models first in order of first mention, the others behind in their old order, and nothing else changes |
| ModelCatalogue.ReorderIdempotent | backend/api/settings/provider_models.py:197-211 | reordering twice by one list is reordering once |
| ModelCatalogue.DeleteRemovesOne | backend/api/settings/provider_models.py:280-296 | exactly that entry goes, the rest keeps its order, and the selection does not name it |
| ModelCatalogue.DeleteDoes | backend/api/settings/provider_models.py:280-296 | an absent id changes nothing; otherwise exactly its entry goes, and the selection moves only if it named that model |
| ModelCatalogue.SelectionMoves | backend/api/settings/provider_models.py:288-296 | deleting the selected model selects another model of the list, or nothing exactly when none has an id |
| ModelCatalogue.SelectionPrefersEnabled | backend/api/settings/provider_models.py:288-296 | the model selected instead is the first enabled one with an id, and otherwise the first one with an id |
| ModelCatalogue.EditsKeepCatalogue | backend/api/settings/provider_models.py:145-300 | through any run of additions, reorders, deletions and loads ids stay unique and the selection keeps naming a model |
| ModelCatalogue.StaysAwayIff | backend/modules/config/schema.py:632-634 | a model that is not in the list stays out of it all along a run if and only if no addition names it and, if it is the legacy model, nothing migrates |
| ModelCatalogue.DeletedLegacyReturns | backend/modules/config/schema.py:632-634 | a deleted legacy model is back after the next start, last and with default settings |
| ModelCatalogue.ProviderCatalogue.Migrate | backend/modules/config/schema.py:632-641 | the migration of this provider's list |
| ModelCatalogue.ProviderCatalogue.AddModels | backend/api/settings/provider_models.py:154-178 | loop and migration compute the edited list |
| ModelCatalogue.ProviderCatalogue.ReorderModels | backend/api/settings/provider_models.py:197-211 | dictionary and loops compute the edited list |
| ModelCatalogue.ProviderCatalogue.DeleteModel | backend/api/settings/provider_models.py:280-296 | the filtered list and the new selection; not found exactly when the id is absent, and then nothing changes |
| SchemaMigration.PlannedExact | backend/database.py:265-283 | the statements are exactly the missing columns of tables that are there |
| SchemaMigration.PlannedConcat | backend/database.py:265-283 | statements come in the order of the entries |
| SchemaMigration.MissingConcat | backend/database.py:272-283 | and those of an entry in the order of its columns, a column listed twice planned once |
| SchemaMigration.RepeatsIff | backend/database.py:265-283 | none is planned twice if and only if no two entries ask for the same missing column |
| SchemaMigration.DistinctTablesDoNotOverlap | backend/database.py:265-283 | in particular with distinct tables |
| SchemaMigration.SecondRunIsQuiet | backend/database.py:257-283 | after the planned statements a second run plans none |
| SchemaMigration.Connection.ApplyMigrations | backend/database.py:257-283 | the loops succeed exactly without such a pair, run exactly the plan, and change the schema only by its columns |

## Left out

- The pending-message inbox, the slow-wait warnings and the statistics of the session gate.
- The callbacks of `CancellationToken`: a flag and a list run once, nothing beyond one body.
- `send_to_session` and `broadcast` beyond the disconnect of a failed send; `handle_ping_event`, tool notifications and history backfill.
- Real floats, `math.log2` and number formatting: reals, a decreasing discount and a monotone printer stand for them.
- Wall-clock time: timer expiry and flush intervals are choices.
- The order of keys in `_deep_merge` results: the entries of a dict are a map there.
- `import_settings` around the merge, and what pydantic checks of an imported MCP server besides the two timeouts: the types of its fields.
- The `api_type` part of `_migrate_provider_models`, its pass over the other providers' lists (each is a catalogue of its own), and `update_provider_model`: field assignments.
- Table reflection and the text of the DDL: a statement is its table and column.
- HTML tokenising: the model starts from the parser's callbacks; how often a character reaches the output is stated for all but spaces and the marks `#`, `>`, `-`, `|` and backtick, which the converter writes itself, and, where a heading's mark contains the character, for text without NUL (`ForgedMarkIsDropped` shows why).
- Sorted visiting orders in `summarize`, `per_type_summary` and `write_qrels_trec`: results are proved for every order.
- Routes, database sessions, file serving, HTTP fetches, logging, process handling, prompts and the frontend.
