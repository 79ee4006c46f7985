# Verified model of the coding-agent harness

A coding-agent harness runs one provider turn at a time, publishes it as ordered protocol events, keeps
a sanitised transcript of it, and shows it in a terminal. This project states what its local protocol
and state code guarantees and proves it with Dafny 4.11. `dafny verify dfyconfig.toml` checks
everything.

The modules follow the program.

- `Lifecycle`, `LifecycleTs`, `Conversation`: the pure lifecycle reducer in Python and in TypeScript, the
  conversation projection and the supervisor that feeds it.
- `LoopLimits`, `ProviderEvents`, `Tape`: the budgets of a session, the grammar of a provider turn, and
  what one transcript accepts.
- `SessionMachine`, `SessionSafety`, `SessionRuns`, `SessionProgress`, `ProviderSessions`: the provider
  session as steps between awaits with an explicit decision lock and deadline guard, the invariant every
  step keeps, the results over all interleavings, the absence of deadlock, and the object whose methods
  carry out the steps.
- `SessionOutcomes`, `SessionCauses`, `SessionUsage`, `SessionTallies`, `SessionDiagnostics`: what an
  outcome publishes and when the deadline decides, what caused it, and that usage, counters and the
  cleanup diagnostic report what happened.
- `WireGrammar`, `ReaderView`: the order of published events, and what a reader makes of them.
- `ResponsesAutomaton`, `AutomatonRuns`, `AutomatonShape`, `AutomatonRoundTrip`: the strict OpenAI stream
  automaton, what it emits for any stream, and which streams succeed.
- `StreamRules`, `AutomatonVerdicts`: what each SDK observation is worth behind the ones before it, stated
  without the automaton, and that the automaton gives exactly these verdicts.
- `ResponsesOperation`, `OperationSafety`, `OperationRuns`, `AdapterOperations`: the adapter operation
  under concurrent consumer, cancellers and cleanup.
- `ComposedRuns`, `ComposedReports`: one session driving one adapter operation, through its reads and its
  cleanup calls, and what it then reports of the SDK.
- `Utf8`, `Redaction`, `Sanitizer`, `SanitizerObject`, `PersistedText`: bounded text, streaming redaction, the
  sanitiser, and what its results show and hide.
- `TranscriptReplay`, `TranscriptWriter`, `TranscriptRuns`, `SessionTranscripts`: the replay reader, the
  writer under storage faults, their agreement, and the writer object.
- `TranscriptContents`, `TranscriptReading`: what the records say and why recording fails, and which files
  the reader takes.
- `EndToEnd`: from any reachable session through its transcript to the replay.
- `Framing`, `OrderedEvents`, `Diagnostics`: line framing on both sides, event numbering, the stderr tail.
- `RepositoryPolicy`, `RepositoryAdmission`, `RepositoryObjects`, `PolicyScanners`: repository read
  admission, its cache and budgets, and the ignore-policy scanners.

Notation. A step function returns nothing when no task is ready to take the step, and a schedule is any
sequence of ready steps; a result over `Reachable` therefore speaks of every interleaving. Where a class
keeps fields up to date, `View()` is its abstract value and each method equates the new view with one
step applied to the old one.

What the environment does is a parameter: the clock's readings, what each SDK read and each write
brings, where the credential patterns match, the JSON codec, the file system and the pattern matcher.

Two limits of the code are kept, and the results say exactly where they lie. `record` does not compare
the session id of a `session.started` event with the transcript's own, so the committed records replay
if and only if that id is the transcript's own (`TranscriptRuns.CommittedRecordsReplay`). A tracker
snapshot validates only if a turn was admitted before any output reservation or tool observation
(`LoopLimits.ChargeKeepsConsistent`).

## Model

| member | source | states |
|---|---|---|
| SessionRuns.ReachableInv | src/code_assist_harness/provider_session.py:154-161 | in every interleaving of stream, deadline watcher, cancellation, teardown, cleanup and finalizer the whole session invariant holds |
| SessionRuns.NeverFaults | src/code_assist_harness/provider_session.py:824-834 | with observers that do not raise, none of the internal errors is reachable: no reducer rejection, no cleanup-mode change, no missing reconciled text |
| SessionRuns.TranscriptAcceptsEveryCall | src/code_assist_harness/provider_session.py:981-999 | every call on the attached transcript passes the writer guards; usage at most once, after text and with no delta behind it; limits evidence once, validated, directly before the one terminal it matches; every terminal carries it |
| SessionRuns.PublishedIsLegal | src/code_assist_harness/provider_session.py:420-433 | the published events are always a prefix of started, delta*, then text and completion, or failure, or cancellation, numbered 1, 2, 3, ..., nothing after the end |
| SessionRuns.PublishedAreRecorded | src/code_assist_harness/provider_session.py:989-999 | the transcript is told exactly the published events, in order, with at most the latest one still on its way |
| SessionRuns.DeadlinePrecedence | src/code_assist_harness/provider_session.py:717-776 | a latched deadline leaves only the deadline outcome; turns, time, output and tool calls are exhausted exactly under the turn limit, the deadline, the output limit and the tool limit; the snapshot always validates |
| SessionRuns.CleanupOnceAndBeforeTerminal | src/code_assist_harness/provider_session.py:794-885 | at most one primary cleanup call, which waits for an operation that ended by itself and cancels any other, settled or forced before any terminal goes out |
| SessionRuns.ProviderGrammarDecides | src/code_assist_harness/provider_session.py:530-663 | the session rejects only ungrammatical streams; a completed session examined a grammatical one and published its text; completion and provider failure answer exactly the ending that was examined; a grammatical ending decides the outcome unless the deadline does |
| SessionRuns.ReturnedSessionsSettle | src/code_assist_harness/provider_session.py:329-375 | when `run` is over it has waited for the finalizer, unless it was cancelled while its handler of a raised write was selecting teardown, which holds exactly when it abandoned that join; an ended finalizer has published the terminal of its outcome, unless torn down, never started on the wire, or the sink failed |
| SessionOutcomes.DeadlineDecidesExactly | src/code_assist_harness/provider_session.py:717-776 | the step that selects an outcome selects the deadline if and only if the deadline has come by the end of that step; no outcome is replaced; a latched budget or a deadline outcome means that the deadline has come |
| SessionOutcomes.OutcomeIsPublished | src/code_assist_harness/provider_session.py:930-979 | the last event of an ended session is its outcome: completion, cancellation under the command that asked, or the failure with exactly the code and message written out for each outcome |
| SessionCauses.OutcomesHaveCauses | src/code_assist_harness/provider_session.py:435-684 | every outcome that stands goes back to a step of the schedule that caused it: the provider's own event, a budget at its charge, a start or read that brought nothing, a request, a cancelled `run` or a refused line |
| SessionUsage.UsageIsTheProviders | src/code_assist_harness/provider_session.py:598-616 | in every interleaving a recorded usage carries exactly the input and output tokens of a usage value the provider reported, under the session's name, and every report of a grammatical stream is recorded or just about to be |
| SessionTallies.CountersAreWhatHappened | src/code_assist_harness/provider_session.py:443-662 | the reported counters are what happened: one model turn once the provider was started, one tool call exactly when a tool call ended the session, and the UTF-8 bytes of the accepted text and the delta under way |
| SessionDiagnostics.DiagnosticsAreReal | src/code_assist_harness/provider_session.py:811-928 | the cleanup diagnostic is out only if a reap or the cleanup failed, and a failed cleanup that the finalizer joined has it out ahead of any terminal |
| SessionProgress.NeverStuck | src/code_assist_harness/provider_session.py:481-528 | no deadlock, exactly: in every interleaving one of the own tasks of the session is ready if and only if it is not idle; the caller, the provider and its answers to cleanup calls count as nobody |
| SessionProgress.OutcomeUnblocks | src/code_assist_harness/provider_session.py:887-903 | a session that runs and has an outcome or an expired deadline is idle only when `run` is over and the finalizer has ended: the stopped watcher wakes a blocked read, and the grace period ends the wait for a cleanup |
| SessionProgress.SelectedSessionsReturn | src/code_assist_harness/provider_session.py:783-822 | once an outcome is selected it stays, at most 180 steps are left whatever comes from outside, and when the session owes none of them `run` is over and the finalizer has ended, with that outcome settled |
| SessionProgress.WorkIsBounded | src/code_assist_harness/provider_session.py:783-822 | after the selection every step is paid for by the work that was left, and a cancellation of `run` adds none |
| SessionProgress.ReturnsEarlyExactly | src/code_assist_harness/provider_session.py:364-374 | `run` can return before its finalizer has ended if and only if it was cancelled while its handler of a raised write was selecting teardown, and that selection is over |
| SessionProgress.RaisedWritesMayReturnEarly | src/code_assist_harness/provider_session.py:364-374 | behind every raised write that found nothing selected, a cancellation in the handler makes `run` return while the finalizer has not begun to clean up |
| SessionProgress.EarlyReturnHappens | src/code_assist_harness/provider_session.py:131-151 | a concrete schedule of that kind: the first write is refused and `run` is cancelled in its handler |
| SessionRuns.CancellationIsRemembered | src/code_assist_harness/provider_session.py:131-151 | the position of `run` says exactly whether such a cancellation happened |
| SessionRuns.CancellationFaultsExactly | src/code_assist_harness/provider_session.py:665-684 | a request for cancellation meets an illegal transition exactly when the session is neither starting nor running nor awaiting approval |
| SessionRuns.RaisingObserverBreaksTheNextRequest | src/code_assist_harness/provider_session.py:989-999 | an observer that raises during a cancellation leaves a reduced, unselected cancellation, and every further request meets an illegal transition |
| SessionRuns.RecordingIsGuarded | src/code_assist_harness/provider_session.py:989-999 | the writer guards over all calls end in exactly the session state |
| SessionSafety.KeepAdmitTerminal | src/code_assist_harness/provider_session.py:930-979 | accepting the terminal update keeps the invariant: the reducer and the transcript both take it after the limits evidence |
| SessionSafety.TerminalMatchesBudget | src/code_assist_harness/persistence/transcript.py:1308-1320 | the terminal of an outcome matches the tracker snapshot: a reserved code exactly for the exhausted budget |
| SessionSafety.CeilingUnreachable | src/code_assist_harness/provider_session.py:573-575 | the fixed protocol ceiling is never what refuses a delta, because the configured budget is charged first |
| SessionSafety.KeepLatch | src/code_assist_harness/provider_session.py:762-776 | latching in the middle of a publication keeps the invariant and exhausts the tracker with the provider-work budget |
| SessionSafety.KeepSelect | src/code_assist_harness/provider_session.py:783-787 | selecting an outcome with its charge keeps the invariant, also when cleanup already began |
| SessionSafety.KeepObservation | src/code_assist_harness/provider_session.py:530-663 | every branch of the observation dispatch keeps the invariant |
| SessionSafety.KeepAdmitDelta | src/code_assist_harness/provider_session.py:576-586 | accepting a published delta keeps the text, its byte count and the transcript in step even if the deadline latched meanwhile |
| SessionSafety.KeepRequestCancellation | src/code_assist_harness/provider_session.py:665-684 | a cancellation, deferred or already reduced, keeps the invariant |
| SessionSafety.KeepStartProvider | src/code_assist_harness/provider_session.py:435-479 | admission, charge and provider start keep the invariant whichever way they end |
| ProviderSessions.ProviderSession.constructor | src/code_assist_harness/provider_session.py:163-271 | a new session with observers attached satisfies the invariant |
| ProviderSessions.ProviderSession.Begin | src/code_assist_harness/provider_session.py:342-345 | `run` starts the watcher only when nothing was selected before |
| ProviderSessions.ProviderSession.EmitStarted | src/code_assist_harness/provider_session.py:420-427 | the start is written with sequence 1, or the write failure leaves the session to teardown |
| ProviderSessions.ProviderSession.SettleStarted | src/code_assist_harness/provider_session.py:428-433 | the written start is reduced and recorded; a deferred cancellation comes next |
| ProviderSessions.ProviderSession.SettleDeferred | src/code_assist_harness/provider_session.py:429-433 | the deferred cancellation is reduced and recorded right behind the start |
| ProviderSessions.ProviderSession.StartProviderOperation | src/code_assist_harness/provider_session.py:435-479 | selection, deadline, turn budget and provider failures are checked in the order of the source |
| ProviderSessions.ProviderSession.ReadNext | src/code_assist_harness/provider_session.py:481-488 | a read is issued exactly while nothing is selected |
| ProviderSessions.ProviderSession.ResumeRead | src/code_assist_harness/provider_session.py:489-528 | an expired deadline wins over whatever the read brought; a missing read is retained |
| ProviderSessions.ProviderSession.SelectProviderDeadline | src/code_assist_harness/provider_session.py:739-746 | the due deadline is latched and selected unless something else was |
| ProviderSessions.ProviderSession.EnterObservation | src/code_assist_harness/provider_session.py:530-535 | an observation is examined only when nothing is selected and the deadline is not due |
| ProviderSessions.ProviderSession.AcceptObservation | src/code_assist_harness/provider_session.py:536-663 | each kind of observation is charged, kept, rejected or turned into an outcome as the machine step says |
| ProviderSessions.ProviderSession.JoinText | src/code_assist_harness/provider_session.py:592 | the accepted fragments are joined in order |
| ProviderSessions.ProviderSession.EmitDelta | src/code_assist_harness/provider_session.py:576-581 | the delta is written with the next sequence number, or the failure is raised |
| ProviderSessions.ProviderSession.SettleDelta | src/code_assist_harness/provider_session.py:582-586 | the written delta is reduced, recorded and counted |
| ProviderSessions.ProviderSession.SettleUsage | src/code_assist_harness/provider_session.py:612-616 | the usage under examination is recorded as it was reported, once, and the deadline is rechecked next |
| ProviderSessions.ProviderSession.RecheckAfterPublication | src/code_assist_harness/provider_session.py:728-737 | a deadline that came due during the publication is selected |
| ProviderSessions.ProviderSession.SelectCandidateLocked | src/code_assist_harness/provider_session.py:717-726 | the candidate is selected unless the deadline is due, which then is |
| ProviderSessions.ProviderSession.RequestUserCancellation | src/code_assist_harness/provider_session.py:665-684 | the cancellation is reduced at once or deferred until the start is on the wire |
| ProviderSessions.ProviderSession.WatchProviderDeadline | src/code_assist_harness/provider_session.py:770-776 | the watcher latches unless an outcome was selected |
| ProviderSessions.ProviderSession.AwaitStartSettled | src/code_assist_harness/provider_session.py:794-799 | no terminal is owed when the start was never published |
| ProviderSessions.ProviderSession.FinishProviderWork | src/code_assist_harness/provider_session.py:807-810 | the watcher is stopped and the one cleanup task is joined in the mode of the outcome |
| ProviderSessions.ProviderSession.ReportCleanupFailureOnce | src/code_assist_harness/provider_session.py:916-928 | the cleanup diagnostic is written at most once, and a sink that refuses it ends the finalizer |
| ProviderSessions.ProviderSession.JoinProviderCleanup | src/code_assist_harness/provider_session.py:811-822 | cleanup and read failures are reported and teardown ends without a terminal |
| ProviderSessions.ProviderSession.EmitAssistantCompleted | src/code_assist_harness/provider_session.py:934-943 | the reconciled text is published before the session completion |
| ProviderSessions.ProviderSession.SettleAssistantCompleted | src/code_assist_harness/provider_session.py:944-945 | the written text is reduced and recorded, and the limits evidence comes next |
| ProviderSessions.ProviderSession.NotifyLoopLimitsOnce | src/code_assist_harness/provider_session.py:981-987 | a validated snapshot is recorded exactly once |
| ProviderSessions.ProviderSession.EmitTerminal | src/code_assist_harness/provider_session.py:945-979 | the one terminal of the outcome is written |
| ProviderSessions.ProviderSession.SettleTerminal | src/code_assist_harness/provider_session.py:951-979 | the written terminal is reduced and recorded, and ends the session |
| ProviderSessions.ProviderSession.EnsureProviderCleanup | src/code_assist_harness/provider_session.py:824-834 | one primary call on the operation, made by whoever asks first |
| ProviderSessions.ProviderSession.AcceptLifecycle | src/code_assist_harness/provider_session.py:989-999 | the observer hears of an update exactly when the reducer accepts it, with the state it led to |
| ProviderEvents.ScanDecides | src/code_assist_harness/provider_session.py:530-663 | the one-pass check accepts exactly the event-by-event turn grammar, and its memory is a function of the events |
| ProviderEvents.ProviderCodesAreNotReserved | src/code_assist_harness/provider_session.py:630-640 | no provider failure code collides with a reserved budget code |
| WireGrammar.HearDecides | src/code_assist_harness/provider_session.py:930-979 | the audience monitor accepts exactly the event-by-event session grammar |
| WireGrammar.ReaderAccepts | src/code_assist_harness/session_state.py:233-313 | a reader that submitted the task accepts every legal stream, wherever its own cancellation falls |
| ReaderView.ReaderFollowsSession | tui/src/session-lifecycle.ts:193-241 | the TypeScript reducer accepts everything a session publishes, in every interleaving |
| Lifecycle.ReplaySessionUpdates | src/code_assist_harness/session_state.py:207-230 | the loop replays in order and stops at the first rejection |
| Lifecycle.ReplayConcat | src/code_assist_harness/session_state.py:207-230 | replaying a concatenation is replaying its parts |
| Lifecycle.RunInvariant | src/code_assist_harness/session_state.py:153-313 | after any accepted run every field is what the updates say: count of wire events, concatenated deltas, identities and failure exactly as the status requires |
| Lifecycle.AcceptedExactly | src/code_assist_harness/session_state.py:153-313 | behind an accepted history an update is accepted if and only if the history admits it: status, session, command, number, text and completion, all read off the updates |
| Lifecycle.RefusalsMean | src/code_assist_harness/session_state.py:233-313 | what each refusal of a wire event means for the history; a number already used is a regression and one that skips ahead is a gap |
| Lifecycle.HistoryStep | src/code_assist_harness/session_state.py:233-313 | one accepted update keeps the state equal to the projection of the history |
| Lifecycle.TerminalsAbsorb | src/code_assist_harness/session_state.py:164-168 | a terminal state refuses every continuation and stays as it is |
| Lifecycle.ReduceKeepsWellFormed | src/code_assist_harness/session_state.py:153-313 | which fields each status fills is kept by every update |
| LifecycleTs.ParityExactly | tui/src/session-lifecycle.ts:258-266 | on arbitrary states the two reducers agree if and only if they do not meet a legal uncorrelated event that expects no correlation |
| LifecycleTs.ReducersPart | tui/src/session-lifecycle.ts:262-266 | a concrete unreachable state on which Python completes and TypeScript refuses |
| LifecycleTs.ParityOnWellFormed | tui/src/session-lifecycle.ts:193-313 | on every state a run can reach both reducers give the same state or the same rejection |
| LifecycleTs.ReplayParity | tui/src/session-lifecycle.ts:243-256 | whole replays agree |
| LifecycleTs.ReplaySessionLifecycle | tui/src/session-lifecycle.ts:243-256 | the loop replays in order and stops at the first rejection |
| LoopLimits.ChargeKeepsConsistent | src/code_assist_harness/loop_limits.py:191-237 | exactly which charge breaks a valid snapshot: provider work counted before any turn was admitted |
| LoopLimits.SnapshotsValidate | src/code_assist_harness/loop_limits.py:409-429 | a tracker snapshot validates after any charges in which a turn comes first |
| LoopLimits.FittingChargesAddUp | src/code_assist_harness/loop_limits.py:346-407 | charges that all fit add up in their own counters |
| LoopLimits.FirstExcessExhausts | src/code_assist_harness/loop_limits.py:346-407 | the first charge that does not fit exhausts its own budget, a tool call being counted nevertheless, and nothing behind it is counted |
| LoopLimits.LoopLimitTracker.AdmitTurn | src/code_assist_harness/loop_limits.py:346-359 | a turn is admitted or the turn budget is exhausted |
| LoopLimits.LoopLimitTracker.ReserveOutput | src/code_assist_harness/loop_limits.py:361-385 | any call is taken: bytes are reserved or the output budget is exhausted, and a valid tracker stays valid unless bytes are reserved before any turn on a tracker that is not exhausted |
| LoopLimits.LoopLimitTracker.ObserveCall | src/code_assist_harness/loop_limits.py:387-401 | any call is taken: a tool call is counted, the one beyond the limit exhausts the budget, and a valid tracker stays valid unless it is not exhausted and never admitted a turn |
| LoopLimits.LoopLimitTracker.MarkExpired | src/code_assist_harness/loop_limits.py:403-407 | the first exhaustion stays |
| LoopLimits.LoopLimitTracker.Snapshot | src/code_assist_harness/loop_limits.py:409-429 | the evidence, or nothing exactly when its own validation refuses it |
| Tape.GuardsPlaceUsage | src/code_assist_harness/persistence/transcript.py:792-800 | calls that pass the guards contain usage at most once, after text, and no later delta |
| Tape.GuardsPlaceLimits | src/code_assist_harness/persistence/transcript.py:716-730 | calls that pass the guards contain limits evidence at most once, followed only by its matching terminal |
| Tape.GuardsPlaceTerminals | src/code_assist_harness/persistence/transcript.py:716-730 | with limits evidence accepted, a terminal comes directly behind it |
| Tape.UpdatesReplay | src/code_assist_harness/persistence/transcript.py:730-735 | the tape state is the replay of the recorded updates |
| ResponsesAutomaton.StreamAutomaton.constructor | src/code_assist_harness/provider/openai_responses.py:536-544 | a fresh automaton |
| ResponsesAutomaton.StreamAutomaton.AcceptEvent | src/code_assist_harness/provider/openai_responses.py:546-584 | type, sequence, error, terminal and handler in the order of the source, with the state left behind by a rejected observation |
| ResponsesAutomaton.StreamAutomaton.AcceptResponseTerminal | src/code_assist_harness/provider/openai_responses.py:555-567 | failed and incomplete responses map to their failure |
| ResponsesAutomaton.StreamAutomaton.ItemAdded | src/code_assist_harness/provider/openai_responses.py:615-629 | reasoning or message item, with its output index |
| ResponsesAutomaton.StreamAutomaton.TextDelta | src/code_assist_harness/provider/openai_responses.py:638-650 | a checked delta is kept and emitted |
| ResponsesAutomaton.StreamAutomaton.TextDone | src/code_assist_harness/provider/openai_responses.py:652-668 | the completed text is emitted only when it repeats the deltas |
| ResponsesAutomaton.StreamAutomaton.ItemDone | src/code_assist_harness/provider/openai_responses.py:677-695 | the item is the one that was added and repeats the text |
| ResponsesAutomaton.StreamAutomaton.ResponseCompleted | src/code_assist_harness/provider/openai_responses.py:697-745 | identity, status, model, output and usage are checked before success is emitted |
| AutomatonRuns.EmittedTurnIsGrammatical | src/code_assist_harness/provider/openai_responses.py:546-745 | for every stream of SDK observations, endings and errors the emitted events are valid and grammatical, and exactly the last event of a finished stream ends it |
| AutomatonRuns.AcceptContinues | src/code_assist_harness/provider/openai_responses.py:546-584 | one accepted observation continues the grammar from the stage it was met in |
| AutomatonShape.OpenStreams | src/code_assist_harness/provider/openai_responses.py:586-695 | while a stream stays open its kinds lead to the stage and its sequence numbers are consecutive |
| AutomatonShape.SuccessfulStreams | src/code_assist_harness/provider/openai_responses.py:546-745 | a stream that succeeds has exactly the one supported shape, consecutive numbers, at least one delta, and its text is what the deltas said |
| AutomatonVerdicts.ReadsAreJudged | src/code_assist_harness/provider/openai_responses.py:546-745 | what every read of an open stream emits is its verdict in the history-based rules, and the stream goes on exactly behind an observation those rules let continue it |
| AutomatonVerdicts.StreamsSucceedExactly | src/code_assist_harness/provider/openai_responses.py:546-745 | success comes to exactly the streams whose observations are each in order behind the ones before and whose completion repeats ids, model, configuration, output and text; the usage is the completion's |
| AutomatonVerdicts.FailuresSayWhy | src/code_assist_harness/provider/openai_responses.py:551-567 | a failed response of this stream ends it with unavailable for server_error and rate_limited for rate_limit_exceeded, an incomplete one with request_rejected, an error event with unknown, a broken read with its own code, each with its message |
| AutomatonRoundTrip.StreamedReplyComesBack | src/code_assist_harness/provider/openai_responses.py:546-745 | any reply streamed fragment by fragment comes back as its fragments, their concatenation, its usage and success |
| OperationRuns.OnlyForward | src/code_assist_harness/provider/openai_responses.py:192-490 | the state only moves through active, resources_closing, terminal_pending, closed, and what was handed out stays handed out |
| OperationRuns.NothingAfterCancelReturns | src/code_assist_harness/provider/openai_responses.py:192-224 | no event follows a returned `cancel` |
| OperationRuns.TerminalsFollowCleanup | src/code_assist_harness/provider/openai_responses.py:386-411 | a pending terminal is present and not cancelled; terminals are handed out only behind a finished cleanup, success only behind a clean one; whoever received an ending finds `wait_closed` through at once, normally after success |
| OperationRuns.WaitClosedIsFinal | src/code_assist_harness/provider/openai_responses.py:226-240 | a normal `wait_closed` means that nothing is queued and that the cleanup ran to its end without failure or, where none was needed, no SDK work and no stream is open; an interrupted cleanup never counts |
| OperationRuns.ReleaseStaysConfirmed | src/code_assist_harness/provider/openai_responses.py:242-286 | once the cleanup has confirmed the release no later cancel or forced cleanup takes that back |
| OperationRuns.DeliveredIsGrammatical | src/code_assist_harness/provider/openai_responses.py:288-319 | whatever the consumer received is a grammatical turn |
| OperationRuns.AdapterSatisfiesSession | src/code_assist_harness/provider_session.py:481-528 | a session fed by the adapter never rejects it; handed-out success completes the session with the streamed text unless the deadline wins |
| ComposedRuns.AdapterNeverRejected | src/code_assist_harness/provider_session.py:481-528 | with the session driving the operation, in every interleaving of both, what the session examined is a prefix of what the adapter handed out and is never rejected; handed-out success completes the session with the streamed text unless the deadline wins |
| ComposedRuns.ReleasedBeforeTerminal | src/code_assist_harness/provider_session.py:794-885 | no session terminal goes out while the provider operation is open, cleaning up or being forced |
| ComposedRuns.VerdictIsTheOperations | src/code_assist_harness/provider_session.py:836-885 | unless it was forced, the session reports an unconfirmed cleanup exactly when the operation could not confirm its release, and a completed session never does |
| ComposedRuns.WaitNeverBlocks | src/code_assist_harness/provider/openai_responses.py:226-240 | whenever the session calls `wait_closed`, the operation has already closed and cleaned up |
| ComposedRuns.JointProjects | src/code_assist_harness/provider_session.py:481-488 | each side of a joint run takes part in one of its own runs |
| ComposedReports.RecordedUsageIsTheSdks | src/code_assist_harness/provider/openai_responses.py:721-742 | with the session driving the operation, each recorded usage carries the input and output tokens of a completion the adapter read from the SDK |
| ComposedReports.ProviderFailureIsTheSdks | src/code_assist_harness/provider_session.py:618-632 | a selected provider failure is the verdict on a read of the SDK stream, code and message, or the general failure of an operation that could not release its resources |
| OperationRuns.ScheduledInv | src/code_assist_harness/provider/openai_responses.py:145-151 | the operation invariant holds under every interleaving of consumer, cancellers, cleanup and forced cleanup |
| AdapterOperations.AdapterOperation.constructor | src/code_assist_harness/provider/openai_responses.py:153-176 | a new operation is active and owns nothing |
| AdapterOperations.AdapterOperation.NextEvent | src/code_assist_harness/provider/openai_responses.py:288-310 | the next queued terminal is handed out, or the consumer goes on to read, join or stop |
| AdapterOperations.AdapterOperation.RunOwned | src/code_assist_harness/provider/openai_responses.py:357-368 | SDK work is claimed only while active |
| AdapterOperations.AdapterOperation.ResumeOwned | src/code_assist_harness/provider/openai_responses.py:321-384 | cancelled work ends the consumer; anything else is mapped through the automaton |
| AdapterOperations.AdapterOperation.NextProgress | src/code_assist_harness/provider/openai_responses.py:313-318 | progress is handed out only while active |
| AdapterOperations.AdapterOperation.FinishTerminalBatch | src/code_assist_harness/provider/openai_responses.py:386-394 | the terminal batch is held back behind the cleanup |
| AdapterOperations.AdapterOperation.InstallTerminal | src/code_assist_harness/provider/openai_responses.py:396-411 | after the cleanup the batch is installed, and success after a failed cleanup becomes a failure |
| AdapterOperations.AdapterOperation.CancelConsumer | src/code_assist_harness/provider/openai_responses.py:481-490 | a cancelled consumer closes the operation and starts the cleanup |
| AdapterOperations.AdapterOperation.CancelOperation | src/code_assist_harness/provider/openai_responses.py:192-217 | the first cancel selects cancellation and drops pending output |
| AdapterOperations.AdapterOperation.CancelJoined | src/code_assist_harness/provider/openai_responses.py:218-224 | after the cleanup the operation is closed and the outcome of the release is told |
| AdapterOperations.AdapterOperation.FinishCleanup | src/code_assist_harness/provider/openai_responses.py:467-472 | a finished cleanup closes a cancelled operation |
| AdapterOperations.AdapterOperation.BeginForce | src/code_assist_harness/provider/openai_responses.py:242-267 | forced cleanup closes at once and keeps a confirmed release confirmed |
| AdapterOperations.AdapterOperation.EndForce | src/code_assist_harness/provider/openai_responses.py:281-286 | forced cleanup ends closed |
| Utf8.DecodeTruncated | src/code_assist_harness/persistence/transcript.py:1421-1423 | cutting encoded text at any byte and decoding the rest gives the longest whole-scalar prefix (section 3 of RFC 3629) |
| Utf8.DecodeEncode | src/code_assist_harness/persistence/transcript.py:1417-1423 | decoding inverts encoding |
| Utf8.BoundedText | src/code_assist_harness/persistence/transcript.py:1417-1423 | a bounded text is the value, or the longest fitting prefix and the marker, and within the limit |
| Redaction.ReplaceRanges | src/code_assist_harness/persistence/transcript.py:1426-1442 | exactly the covered characters go, one marker for each maximal run, all others stay in order |
| Redaction.MergeRanges | src/code_assist_harness/persistence/transcript.py:1429-1435 | merged ranges are apart and cover the same positions |
| Redaction.OccurrenceRanges | src/code_assist_harness/persistence/transcript.py:506-514 | exactly the positions of the fragment inside some occurrence are covered |
| Redaction.UnfinishedRange | src/code_assist_harness/persistence/transcript.py:515-524 | exactly the positions inside the longest possible beginning of a secret are covered |
| Redaction.SecretRanges | src/code_assist_harness/persistence/transcript.py:505-524 | exactly the positions that some secret claims are covered |
| Redaction.StreamCoverage | src/code_assist_harness/persistence/transcript.py:487-543 | every character of every secret occurrence is claimed in its own fragment, however the stream is cut |
| Sanitizer.SecretsAreCovered | src/code_assist_harness/persistence/transcript.py:459-543 | in a run of updates every character of every secret occurrence in the streamed text is claimed in the delta that carries it |
| Sanitizer.SanitizingSimulates | src/code_assist_harness/persistence/transcript.py:459-485 | whatever the live reducer accepts is accepted in sanitised form, step for step, and the states agree on all the transcript compares |
| Sanitizer.SimulationStep | src/code_assist_harness/persistence/transcript.py:730-735 | one accepted update stays acceptable after sanitising |
| Sanitizer.SanitizeKeepsBudget | src/code_assist_harness/persistence/transcript.py:556-571 | n deltas persist at most the text limit, 11 bytes of marker and n bytes |
| SanitizerObject.TranscriptSanitizer.RedactStreamFragment | src/code_assist_harness/persistence/transcript.py:487-543 | exactly the claimed and credential positions are masked, and the raw tail is remembered |
| SanitizerObject.TranscriptSanitizer.BoundedAssistantFragment | src/code_assist_harness/persistence/transcript.py:556-571 | the fragment is bounded and never empty |
| SanitizerObject.TranscriptSanitizer.SanitizeUpdate | src/code_assist_harness/persistence/transcript.py:459-485 | the update is sanitised as the specification says |
| PersistedText.PersistedDelta | src/code_assist_harness/persistence/transcript.py:487-571 | a persisted delta is the fragment with each maximal hidden run replaced by one marker and all else in order, then redacted as a whole, then the longest prefix that fits with the truncation marker, or one omission mark |
| PersistedText.PersistedBudget | src/code_assist_harness/persistence/transcript.py:556-571 | the content bytes grow by exactly what was persisted of the fragment, and the budget is exhausted exactly from the first fragment that does not fit |
| PersistedText.PersistedRest | src/code_assist_harness/persistence/transcript.py:459-485 | a task and a failure message are redacted and then bounded, a completed text repeats the persisted deltas, and everything else is persisted as it is |
| PersistedText.HiddenLeavesNoTrace | src/code_assist_harness/persistence/transcript.py:487-543 | updates that differ in claimed characters alone, behind the same memory, are persisted alike |
| PersistedText.SecretsLeaveNoTrace | src/code_assist_harness/persistence/transcript.py:459-543 | whole runs whose streams differ in characters of secret occurrences alone are persisted alike, update for update |
| PersistedText.CompletedTextIsPersisted | src/code_assist_harness/persistence/transcript.py:470-478 | what the completed text repeats is the concatenation of the persisted deltas |
| TranscriptReplay.ReplayTranscript | src/code_assist_harness/persistence/transcript.py:1012-1200 | the read loop accepts or refuses a file line by line, from the first line on |
| TranscriptReplay.ReplayJoined | src/code_assist_harness/persistence/transcript.py:1069-1090 | reading a file of whole lines is reading its lines one by one, whatever follows |
| TranscriptReading.FilesReadExactly | src/code_assist_harness/persistence/transcript.py:1012-1200 | a file is read if and only if it is cut into legible lines: framed, within the caps, decoded, not foreign, and each record admitted by the records in front of it |
| TranscriptReading.LegibleFilesAreRead | src/code_assist_harness/persistence/transcript.py:1069-1200 | what is returned is what the records say: the replay of their updates, their usage and their limits evidence |
| TranscriptReading.ForeignRecordsAreRefused | src/code_assist_harness/persistence/transcript.py:1084-1108 | a framed record with a foreign order, version, workspace or session is refused for exactly the first of these, at its own line |
| TranscriptWriter.PayloadAgrees | src/code_assist_harness/persistence/transcript.py:1110-1190 | what the writer guards admit the reader accepts, and both end in the same state and evidence |
| TranscriptWriter.CommitKeepsFile | src/code_assist_harness/persistence/transcript.py:890-913 | committing or failing to commit a record keeps the file equal to the committed lines and at most one torn line |
| TranscriptRuns.FileIsCommittedRecords | src/code_assist_harness/persistence/transcript.py:890-913 | under any short writes and write, flush or truncate failures the file is the committed records and at most the start of the next line |
| TranscriptRuns.TornMeansRollbackFailed | src/code_assist_harness/persistence/transcript.py:1458-1467 | a torn line is left only when the truncating rollback failed as well, in the very call that reported the failure |
| TranscriptRuns.CommittedRecordsReplay | src/code_assist_harness/persistence/transcript.py:1012-1200 | the committed records replay if and only if no foreign session was recorded; the replay gives the writer's records, state, evidence and completeness |
| TranscriptRuns.TornLineIsRefusedUnlessWhole | src/code_assist_harness/persistence/transcript.py:1069-1090 | behind the committed records a torn line is read if and only if it got through whole, with its LF, and names the own session; then it counts as the record that was attempted |
| TranscriptRuns.FailureReportedOnce | src/code_assist_harness/persistence/transcript.py:944-953 | a persistence failure is reported exactly once and closes the transcript |
| TranscriptContents.RecordsShowTheCalls | src/code_assist_harness/persistence/transcript.py:1229-1268 | under any faults the committed records are those of the first calls, in order: numbered, stamped with the time of the call, usage and limits value for value, updates as the sanitised run has them |
| TranscriptContents.SecretsNeverReachTheFile | src/code_assist_harness/persistence/transcript.py:693-766 | under any faults, calls that differ in characters of secret occurrences alone leave the same file, byte for byte, and the same reported failures |
| TranscriptContents.FailureHasItsCause | src/code_assist_harness/persistence/transcript.py:885-953 | guards, size caps and a stalled write are reported as a failed write, a failed flush as such, and a failed summary only behind the session end |
| TranscriptContents.ClosedTakesNothing | src/code_assist_harness/persistence/transcript.py:709-714 | a closed transcript takes nothing more and at most hands out its failure |
| EndToEnd.ReplaySizeGuardNeverFires | src/code_assist_harness/persistence/transcript.py:736-740 | with the default text limit and the record cap the replay-size guard cannot fire |
| EndToEnd.AllCallsAreRecorded | src/code_assist_harness/persistence/transcript.py:693-883 | calls the guards admit are all recorded when storage lets them through |
| EndToEnd.ReplayShowsTheSession | src/code_assist_harness/persistence/transcript.py:1012-1200 | replaying the transcript of any session shows its lifecycle, usage and limits evidence, and is complete exactly when it ended |
| EndToEnd.ReplayShowsTheEvidence | src/code_assist_harness/persistence/transcript.py:1012-1200 | the replayed usage is one the provider reported, token for token, and no report of a grammatical stream is missing once told; the replayed limits are the session's own and an ended session has them |
| SessionTranscripts.SessionTranscript.constructor | src/code_assist_harness/persistence/transcript.py:583-614 | an empty open transcript |
| SessionTranscripts.SessionTranscript.WriteAll | src/code_assist_harness/persistence/transcript.py:1445-1455 | short writes are continued; no progress or an error leaves a proper prefix |
| SessionTranscripts.SessionTranscript.AppendAndFlush | src/code_assist_harness/persistence/transcript.py:902-913 | a failed append is rolled back to the old end of the file when truncation works |
| SessionTranscripts.SessionTranscript.AppendRecord | src/code_assist_harness/persistence/transcript.py:890-900 | a record that encodes and fits is appended and committed |
| SessionTranscripts.SessionTranscript.LatchFailure | src/code_assist_harness/persistence/transcript.py:944-947 | the first failure stays and closes the transcript |
| SessionTranscripts.SessionTranscript.TakeFailure | src/code_assist_harness/persistence/transcript.py:949-953 | the failure is handed out once |
| SessionTranscripts.SessionTranscript.RecordLifecycle | src/code_assist_harness/persistence/transcript.py:693-766 | sanitise, guard, reduce, append, and close at the terminal |
| SessionTranscripts.SessionTranscript.RecordModelUsage | src/code_assist_harness/persistence/transcript.py:768-820 | usage is guarded and appended |
| SessionTranscripts.SessionTranscript.RecordLoopLimits | src/code_assist_harness/persistence/transcript.py:822-883 | limits evidence is guarded and appended |
| Framing.BoundedLineReader.Feed | src/code_assist_harness/protocol/streams.py:53-103 | a chunk yields exactly the outcomes it makes due in the specification of the whole byte string, and no more than the bound is retained |
| Framing.BoundedLineReader.Finish | src/code_assist_harness/protocol/streams.py:105-122 | a non-empty unterminated tail within the bound is one framing failure |
| Framing.NdjsonLineReader.Push | tui/src/protocol-stream.ts:70-97 | a chunk yields exactly the outcomes it makes due in the same specification |
| Framing.NdjsonLineReader.Finish | tui/src/protocol-stream.ts:109-126 | a non-empty unterminated tail within the bound is one framing failure |
| Framing.FeedBoth | tui/src/protocol-stream.ts:70-97 | the two readers agree chunk by chunk |
| Framing.ReadStream | src/code_assist_harness/protocol/streams.py:53-122 | the outcomes depend on the bytes alone, not on the chunks |
| Framing.DueGrows | src/code_assist_harness/protocol/streams.py:53-103 | outcomes already due stay due |
| Framing.SplitIsLossless | src/code_assist_harness/protocol/streams.py:53-103 | the lines and the tail give the stream back, and no line holds an LF |
| Framing.OutcomesOfLines | src/code_assist_harness/protocol/streams.py:53-122 | line by line: within the limit a line comes out whole, a longer one as one failure, and a rest without LF as one failure at the end or at once when too long |
| OrderedEvents.OrderedEventWriter.EmitSession | src/code_assist_harness/protocol/streams.py:238-313 | a number is used exactly when its line was written, even under cancellation |
| OrderedEvents.OrderedEventWriter.EmitRuntime | src/code_assist_harness/protocol/streams.py:196-236 | runtime events take no number |
| OrderedEvents.NumbersIncrease | src/code_assist_harness/protocol/streams.py:276-293 | events of one session never share a number and their numbers increase |
| Diagnostics.RuntimeDiagnostics.Append | tui/src/runtime-diagnostics.ts:78-101 | the tail is the last bytes of the whole history; truncated exactly when bytes were lost; inside-line exactly when the byte before the tail is not a line break |
| Diagnostics.RuntimeDiagnostics.DisplayTail | tui/src/runtime-diagnostics.ts:119-123 | a tail cut inside a line is shown only from its first line break on |
| Diagnostics.DropLeadingPartialLine | tui/src/runtime-diagnostics.ts:178-190 | everything behind the first line break, CR LF counting as one |
| Diagnostics.KeepsWholeLines | tui/src/runtime-diagnostics.ts:178-190 | what is left begins at the start of a line |
| Diagnostics.FirstBreakDecides | tui/src/runtime-diagnostics.ts:178-190 | the first CR, LF or CR LF goes with everything in front of it, and nothing else does |
| Conversation.ReduceKeepsFaithful | tui/src/session-state.ts:97-135 | an accepted update leaves earlier turns ended and untouched, never throws and never meets the empty-turns guard |
| Conversation.ReduceKeepsPictures | tui/src/session-state.ts:97-176 | every turn shows its own part of the published updates: the submitted task and its command, the joined deltas as the answer, and status, session, number, cancellation and failure from the latest such updates |
| Conversation.RunShows | tui/src/session-state.ts:160-176 | the turn projected from an accepted run shows exactly that run |
| Conversation.RefusalKeepsTurns | tui/src/session-state.ts:179-188 | a refused update leaves turns and lifecycle as they were and shows the code, prior status and type of the refusal |
| Conversation.Supervisor.Publish | tui/src/runtime-supervisor.ts:891-895 | a published update is accepted by the subscribed projection, which stays equal to the validation state and shows everything published |
| Conversation.Supervisor.SubmitTask | tui/src/runtime-supervisor.ts:369-419 | a task is published exactly when accepted; the local state is never what refuses it |
| Conversation.Supervisor.CancelSession | tui/src/runtime-supervisor.ts:435-488 | true exactly when one cancellation was published |
| Conversation.Supervisor.AcceptSessionEvent | tui/src/runtime-supervisor.ts:803-815 | an accepted event is published; a refused one fails the runtime and changes nothing else |
| Conversation.Supervisor.TransitionToProtocolFailure | tui/src/runtime-supervisor.ts:817-830 | a failure is entered once and never after a stop |
| RepositoryAdmission.AdmissionIsExact | src/code_assist_harness/repository_access.py:305-375 | admitted if and only if neither view is hard-denied, no proper ancestor is ignored in either view, the path is not ignored for its kind and every policy on both views can be read, parsed and afforded; policy_invalid only if some policy or budget fails; every other refusal has its cause; cache and budgets hold whatever the outcome |
| RepositoryAdmission.FreshAdmission | src/code_assist_harness/repository_access.py:301-316 | with nothing spent and all policies readable and affordable, a path is admitted if and only if the rules admit it |
| RepositoryAdmission.ViewDecides | src/code_assist_harness/repository_access.py:377-416 | one view is granted only if open and readable, with the sources read and the patterns matched counted exactly; policy_invalid means that it is not readable, any other error names the first owner that stops it |
| RepositoryAdmission.HardDeniedExactly | src/code_assist_harness/repository_access.py:172-196 | hard-denied exactly with a control directory anywhere or a sensitive basename in any ASCII case, the three documentation files excepted |
| RepositoryAdmission.DeniedIsUnavailable | src/code_assist_harness/repository_access.py:318-319 | a hard-denied request is unavailable, whatever exists |
| RepositoryAdmission.SharedAdmissionIsFreshAdmission | src/code_assist_harness/repository_access.py:258-270 | any path admitted inside a shared traversal is admitted identically with fresh state |
| RepositoryAdmission.IgnoredIsLastMatch | src/code_assist_harness/repository_access.py:534-561 | ignored is the last match in the flattened root-to-nearest pattern list, refused exactly when the match budget does not hold the patterns that concern the target |
| RepositoryAdmission.CheckIsLastMatch | src/code_assist_harness/repository_access.py:662-674 | one policy decides by its last deciding pattern |
| RepositoryAdmission.LoadKeeps | src/code_assist_harness/repository_access.py:435-483 | loading succeeds if and only if the policy is absent, or can be read, parsed and afforded; it equals a fresh parse, and the cache and its budgets stay right |
| RepositoryAdmission.PrepareDecides | src/code_assist_harness/repository_access.py:377-416 | preparing a view succeeds only if every owner on the way is open and readable, collects exactly their policies and spends exactly their work; otherwise it names the first owner that stops it, or a policy or budget that fails |
| RepositoryObjects.RepositoryDecision.IsIgnoredLoop | src/code_assist_harness/repository_access.py:534-561 | the fold over scoped policies within the match budget |
| RepositoryObjects.RepositoryDecision.Load | src/code_assist_harness/repository_access.py:435-483 | a policy is probed, resolved, taken from the cache or read within the budgets |
| RepositoryObjects.RepositoryDecision.PrepareIgnoreView | src/code_assist_harness/repository_access.py:377-416 | owners are admitted from the root to the nearest |
| RepositoryObjects.RepositoryDecision.AdmitExistingPath | src/code_assist_harness/repository_access.py:305-375 | the result is the specified decision: an admitted path exactly when it is admissible and the policies of both views are readable |
| RepositoryObjects.CheckPolicyLoop | src/code_assist_harness/repository_access.py:662-674 | the loop finds the last deciding pattern |
| PolicyScanners.NormalizePolicyLine | src/code_assist_harness/repository_access.py:677-698 | at most one trailing CR goes, then exactly the maximal trailing run of unescaped spaces |
| PolicyScanners.TrailingRunIsUnique | src/code_assist_harness/repository_access.py:677-698 | that run is determined |
| PolicyScanners.ValidatePolicyRange | src/code_assist_harness/repository_access.py:712-730 | accepts exactly the bracket grammar |
| PolicyScanners.RangeExcludesSlash | src/code_assist_harness/repository_access.py:712-730 | an accepted bracket denotes a set without the path separator |
| PolicyScanners.RangeIsItsMembers | src/code_assist_harness/repository_access.py:701-730 | the accepted brackets are exactly the written sequences of single characters and spans within one class that do not begin with a negation or a closing bracket |
| PolicyScanners.ValidatePolicySegment | src/code_assist_harness/repository_access.py:733-764 | accepts exactly the segments with at most one live star, no live question mark and only accepted closed brackets |
| PolicyScanners.SegmentsKeepSeparators | src/code_assist_harness/repository_access.py:733-764 | no closed bracket of an accepted segment can stand for a path separator |
| PolicyScanners.ValidatePolicyLine | src/code_assist_harness/repository_access.py:767-788 | accepts exactly the lines of accepted segments with at most one active globstar |

## Left out

- Asyncio machinery, tasks and shielding: awaits are the borders between steps, and the clock is a
  nondecreasing integer.
- JSON, pydantic and zod schemas, timestamps and identifier patterns: messages are typed values, and the
  codec is a parameter that decodes what it encodes. A sanitised value that no longer meets a field
  limit shows as an encoding failure.
- SessionRuns.NeverFaults: observers that raise, which takes a failing transcript and a failing sink
  together; what follows a raised cancellation is stated exactly beside it.
- SessionProgress.NeverStuck: the length of the grace period; and that a cancelled read, a cancelled
  cleanup call and `force_cancel_cleanup` themselves return, as the responsive-provider contract says.
- Exception types: a raised internal error is a flag, and a refused construction is a missing result.
- The results that `request_cancellation` and `request_teardown` return to their callers: only their
  effect on the session is modelled.
- Credential patterns: they add arbitrary positions to every fragment; the state that carries a match
  into the next fragment is part of that freedom.
- `_redact` on whole values: an arbitrary function, so the results hold whatever it replaces.
- ProviderSessions.ProviderSession.AcceptObservation: a delta without a UTF-8 form is the same as an
  unknown observation, because text here holds Unicode scalar values only.
- TranscriptReplay.ReplayTranscript: opening, file type and close failures of the operating system.
- SessionTranscripts.SessionTranscript.RecordLifecycle: `close` before a terminal; it only stops further
  calls, so the file is the one after the calls made so far.
- Redaction.StreamCoverage: secret characters are covered; a marker may itself contain a short secret, so
  the absence of the secret string from the output is not claimed.
- Utf8.DecodeTruncated: decoding is modelled on cut encodings of text, not on arbitrary malformed bytes.
- Diagnostics.RuntimeDiagnostics.Append: redaction and display limits of the shown text.
- RepositoryAdmission.AdmissionIsExact: the file system does not change during a decision, so the
  rechecks of an owner and of the final target succeed; pattern matching itself is a parameter.
- PolicyScanners.ValidatePolicyLine: compiling accepted lines into patterns.
- Framing.BoundedLineReader.Feed: parsing a framed line, where the two sides differ on purpose.
- The summary file, directory permissions and transcript creation.
- The OpenAI SDK, HTTP, exception mapping beyond the resulting failure code, and credentials.
- The mock session and the fake provider, which are weaker versions of the modelled ones.
- The runtime command loop, process supervision, signals, command-line parsing and the Ink user interface.
