# lark-coding-agent-bridge: verified model

The bridge connects chats to coding agents. Its difficult logic is a handful of small
concurrent protocols and one pipeline that turns agent events into a card. This project
models that logic in Dafny and proves what it promises.

## How the model is built

- **Sections.** What the Go code does while it holds a lock is one function on a value
  (`AfterSettle`, `Taken`, `AfterPoll`, ...). A class with the same fields has one method per
  section, and each method is proved to have exactly the effect of its function.
- **Interleavings.** A run is an arbitrary sequence of actions; an action that is not enabled
  changes nothing. Sections of all goroutines, timers, replies, failures and process deaths
  interleave freely. Gaps between a check and its act are kept: a click checks in one action
  and settles in a later one, a Codex response is taken out of the table in one action and
  sent in a later one, a rotation of a card has four sections.
- **Theorems** are about every run, or about a run `past` followed by any `future`.
- Fields called history (`clicks`, `winner`, `pushed`, `overlap`, `closings`, ...) record what
  happened; the modelled code never reads them.

| file | what it models |
|---|---|
| `AskModel`, `AskBroker`, `AskProtocol` | pending questions settled by clicks, text, timeouts and invalidations |
| `AskOutcomes` | what each click, text, timeout or invalidation does to a question, and what `Register` then returns |
| `CardStream`, `CardStreamProgress` | the streaming-card pump: latest-value cell, wake-up token, throttled pusher, finisher; and that it comes to its end |
| `AgentEvents`, `CardState`, `CardObjects` | the event reducer on values, and on the heap with its sharing of tool entries |
| `CardSummary` | what a shown state says about the events, field by field and block by block, also once it is marked as ended |
| `CodexTranslator` | the Codex line translator and its composition with the card |
| `CodexCard` | what each kind of Codex line does to the card, in terms of the line's fields |
| `OpenCode`, `OpenCodeServer` | event stream plus polling backfill; runs closed by four actors |
| `OpenCodeArrival` | what arrives on a run's channel, and what opens and closes it |
| `Rpc`, `RpcProgress` | request/response correlation of the ACP, Codex and pi clients; how calls come to an end |
| `PendingQueue` | the debounce queue and its consumer |
| `RunCards` | runs, their cards, rotation, stop and refresh buttons, the end of a run |
| `Access` | chat access decisions and how the lists change |
| `Numerals`, `Spaces`, `TextFormats`, `Pricing` | grouped integers, percent encoding, model references, price lookup |

## What the proofs found

Some promises hold only under a condition. For each of these the condition is proved in both
directions, and a lemma gives a run or an input on which the promise fails.

- Two timers can start two runs of one scope, and the first to end unblocks the scope under the
  second (`TwoTimersTwoRuns`). At most one run is in flight if and only if no timer takes a
  batch between the unlock in `fire` and the `Block` in `flush` (`OneRunAtATime`).
- A finished card can stream again (`RefreshCanReviveCard`). The end that the run itself chooses is
  never noted in the run object, so a refresh click reads a run that is still going, even when the
  whole click comes after the run's closing snapshot. It happens if and only if such a click
  stores last before the finishing and no done or error event had been published when it read
  (`FinishedCardHasEnded`).
- A stop that is answered as done after the event loop has ended leaves a card that says complete
  (`LateStopShowsComplete`). Without a done or error event and without the watchdog the card says
  stopped if and only if the stop came before the loop ended (`OutcomeIsShown`, `LoopEndSeesStops`).
- The polling backfill of OpenCode can double text (`RacingDeltaIsDoubled`) and lose text
  (`InFlightDeltaIsLost`): a delta that is recorded but not yet handed out when the poll compares
  counts as delivered, and if the poll then ends the run nobody receives it. The run gets what it
  was promised if and only if the text handed out between the poll's comparison and its end is
  exactly the text that was recorded but not handed out at the comparison (`Backfill`).
- An error event does not close the text being streamed, so an errored card keeps a block marked
  as streaming (`ErrorLeavesTextStreaming`, exact in `FinalizedClosesText`); and a done event after
  an error turns the card into a completed one (`DoneHidesError`, exact in `TerminalClosedForm`).
- A pi reply whose write fails removes the waiter whose id it happens to carry (`PiReplyCanOrphan`);
  a waiter is left to its timeout if and only if that happened to it (`NobodyStranded`).
- Two access commands that load the same saved lists can overwrite each other
  (`StaleSaveLosesInvite`). No change is ever lost if and only if every save would have come out the
  same from the lists as they were when it was saved (`NoChangeLost`); callers can arrange this by
  saving nothing between the load and the save of a command (`FreshSavesLoseNothing`).
- `formatPiInteger` puts a comma behind the sign of some negative numbers (`FormattersDisagree`,
  exact in `FormattersAgree`). Its only caller passes positive numbers, so no reader sees this.

## Model

| member | source | states |
|---|---|---|
| AskModel.ValidateInput | internal/ask/broker.go:413-439 | the scan accepts exactly the good inputs and otherwise names the first bad question |
| AskModel.ToggleMeaning | internal/ask/broker.go:150-160 | after any clicks a multi-select question holds the keys toggled an odd number of times, a single-select question the last one |
| Spaces.TrimSpace | internal/ask/broker.go:249-252 | trimmed text is empty exactly when the text is blank; nothing else is cut away |
| AskBroker.Broker.RegisterAsk | internal/ask/broker.go:66-99 | the first section of `Register`: a fresh open ask with its timeout armed enters the table |
| AskBroker.Broker.RecordCard | internal/ask/broker.go:109-114 | the card is noted only on an ask that is present and open |
| AskBroker.Broker.CheckOpen | internal/ask/broker.go:136-142 | the common guard, in terms of the table: open exactly for a filed, unsettled ask when a nonce that is given is the ask's own; already settled for a settled one; stale otherwise |
| AskBroker.Broker.MaterializeSelections | internal/ask/broker.go:458-468 | the listing of each selection set is complete and free of duplicates |
| AskBroker.Broker.Toggle | internal/ask/broker.go:132-164 | outcome and whole new state of a toggle, including the refreshed listing |
| AskBroker.Broker.CheckSelect | internal/ask/broker.go:167-186 | the check of a one-click answer |
| AskBroker.Broker.CheckSubmit | internal/ask/broker.go:199-239 | the check of a submit and the listing it takes with it |
| AskBroker.Broker.CheckText | internal/ask/broker.go:248-269 | the check shared by `SubmitInput` and `SubmitComment` |
| AskBroker.Broker.Settle | internal/ask/broker.go:377-397 | wins exactly when the ask is present and open, and then fixes result, timers and retention |
| AskBroker.Broker.Send | internal/ask/broker.go:399-402 | the non-blocking send of the winner |
| AskBroker.Broker.CollectScope | internal/ask/broker.go:337-345 | collects exactly the open asks of the scope, each once |
| AskBroker.Broker.PendingCountForScope | internal/ask/broker.go:365-375 | counts exactly the open asks of the scope |
| AskProtocol.SettledForGood | internal/ask/broker.go:377-397 | once settled, an ask keeps its result in every future; an open ask never leaves the table; nonce, scope and questions never change |
| AskProtocol.OneAccepted | internal/ask/broker.go:186-313 | at most one caller per ask sees `Accepted`, and `Register` returns that caller's result |
| AskProtocol.SendNeverDropped | internal/ask/broker.go:399-402 | the send never takes its default branch and no second sender for the ask exists |
| AskProtocol.NeverStranded | internal/ask/broker.go:93-118 | `Register` can always be released: a timeout is armed, or the result is on its way, in the channel or returned |
| AskProtocol.SweepLeavesNothingOpen | internal/ask/broker.go:337-349 | every ask of the scope that exists when `InvalidateScope` is entered is settled when it returns |
| AskProtocol.AnswersAreValid | internal/ask/broker.go:167-313 | every answered result has only valid keys, at most one per single-select question, and a key or a comment that is not blank |
| AskProtocol.SelectionsMeanClicks | internal/ask/broker.go:150-161 | in every reachable state the listing is a duplicate-free listing of what the accepted clicks mean |
| AskProtocol.SubmitReportsItsCheck | internal/ask/broker.go:210-243 | a submit settles with the selections of its check even if toggles slip into the gap |
| AskOutcomes.RegisterOutcome | internal/ask/broker.go:54-99 | good questions leave an open ask with the given fields, nothing selected and its timeout armed; bad ones leave no trace |
| AskOutcomes.CardIsNoted | internal/ask/broker.go:109-116 | after the card was sent it is noted exactly on an ask that is still open, and `Register` waits |
| AskOutcomes.ToggleOutcome | internal/ask/broker.go:132-165 | in every reachable state: carried out exactly on an open ask with its own nonce, an index in range and an existing key, and then flips that key alone; otherwise refused as stale or already settled, changing nothing |
| AskOutcomes.SelectOutcome | internal/ask/broker.go:167-196 | in every reachable state: goes on to settle with the key exactly on an open ask with its own nonce, one question, one choice and an existing key |
| AskOutcomes.SubmitOutcome | internal/ask/broker.go:199-245 | in every reachable state: goes on to settle exactly on an open ask with its own nonce and something selected; asks for a selection exactly if nothing is |
| AskOutcomes.TextOutcome | internal/ask/broker.go:248-313 | in every reachable state: a text settles exactly an open free-text ask when it is not blank and a nonce that is given is the ask's own |
| AskOutcomes.SelectAnswers | internal/ask/broker.go:167-196 | an undisturbed click with the ask's own nonce is accepted and `Register` returns the key |
| AskOutcomes.SubmitAnswers | internal/ask/broker.go:199-245 | likewise a submit returns the selections |
| AskOutcomes.TextAnswers | internal/ask/broker.go:248-313 | likewise a text returns the trimmed comment |
| AskOutcomes.TimeoutAnswers | internal/ask/broker.go:93-95 | an armed timeout makes `Register` return that it timed out |
| AskOutcomes.InvalidateAnswers | internal/ask/broker.go:332-334 | `Invalidate` makes `Register` return the reason |
| AskOutcomes.FailedDispatchAnswers | internal/ask/broker.go:101-108 | a card that cannot be sent makes `Register` return the error |
| AskOutcomes.ScopeCanBeInvalidated | internal/ask/broker.go:337-349 | `InvalidateScope` can work off its list, and then every ask of the scope that was registered is settled |
| AskOutcomes.SweepRound | internal/ask/broker.go:346-348 | one round of the sweep leaves its ask settled, with the reason if it was still open, and goes on with the rest |
| AskOutcomes.TablesMeanAsks | internal/ask/broker.go:377-397 | in every reachable state the tables agree with the asks: open asks are pending, settled pending ones will be forgotten, only open asks have a timeout |
| AskOutcomes.RetentionForgets | internal/ask/broker.go:389-394 | the retention timer forgets the settled ask and touches nothing else |
| AskOutcomes.OpenInScopeMeansOpen | internal/ask/broker.go:337-375 | what a sweep collects and what is counted for a scope are exactly its open asks |
| CardStream.Stream.Update | internal/card/stream.go:87-95 | stores the snapshot and leaves a wake-up token |
| CardStream.Stream.TakeSnapshot | internal/card/stream.go:121-134 | the locked half of `push`: takes the latest snapshot unless a push failed, and numbers it |
| CardStream.Stream.NextSequence | internal/card/stream.go:160-163 | the closing call takes the next number |
| CardStream.StrictSequence | internal/card/stream.go:121-176 | calls are numbered 1, 2, 3, ... without gap or repeat, and the closing call comes last |
| CardStream.SentInOrder | internal/card/stream.go:121-145 | the snapshots sent are an in-order subsequence of the updates |
| CardStream.NoLostWakeUp | internal/card/stream.go:87-119 | while no push failed, a stored snapshot has a token, an updater about to notify, or a loop about to take it |
| CardStream.NoPushAfterFailure | internal/card/stream.go:121-145 | after a failed push nothing is pushed any more |
| CardStream.LastWrite | internal/card/stream.go:148-176 | after the finisher's own push the last snapshot sent is the last one stored, unless it was held back by a failure: exactly then it is never sent |
| CardStream.StuckMeansFailure | internal/card/stream.go:121-145 | a snapshot is held back only after a failed push |
| CardStream.LastUpdateDelivered | internal/card/stream.go:121-176 | after the finisher's own push the last update stored before it was accepted by the card service exactly if no push failed |
| CardStream.LoopKeepsDistance | internal/card/stream.go:97-119 | pushes of the loop are at least the throttle interval after the push before |
| CardStreamProgress.WaitIsExact | internal/card/stream.go:103-117 | a woken loop pushes at once if the last push is 400 ms old or there was none, and otherwise waits exactly until it is |
| CardStreamProgress.SnapshotCanArrive | internal/card/stream.go:87-145 | while the loop runs and no push failed, the snapshot in the cell can be brought to the card |
| CardStreamProgress.FinishCanComplete | internal/card/stream.go:148-176 | from every reachable state `Finish` can come to its end within twelve steps, with the closing call made |
| CardState.ShapeClosedForm | internal/card/state.go:166-273 | which event begins which block, and of which kind, read off the event list alone |
| CardState.ContentClosedForm | internal/card/state.go:166-186 | every text block is the concatenation of its own deltas and streams only if it is last and not closed |
| CardState.ShownClosedForm | internal/card/state.go:187-226 | a tool block shows the last later result of its id, and runs exactly when there is none |
| CardState.ToolBlocksMatchToolUses | internal/card/state.go:187-199 | there is one tool block per tool use, in order |
| CardState.ToolOrigin | internal/card/state.go:187-199 | every tool block comes from a tool use, which names it |
| CardState.SharedBlock | internal/card/state.go:172-186 | two deltas share a block exactly when no tool use and no done event lies between them |
| CardState.TextConserved | internal/card/state.go:166-186 | the concatenated text blocks are the concatenated deltas |
| CardState.StreamingIsLast | internal/card/state.go:154-164 | a block marked as streaming is the last one |
| CardState.TerminalClosedForm | internal/card/state.go:227-273 | the end state is that of the last done or error event |
| CardState.DoneHidesError | internal/card/state.go:240-273 | an input on which a done event after an error shows a completed card |
| CardState.TerminalStaysFinal | internal/card/state.go:227-273 | no further events bring an ended card back to running |
| CardState.FinalizedClosesText | internal/card/state.go:276-309 | the final state has ended; text is left streaming exactly when an event had ended the card with text still open |
| CardSummary.FoldShowsRun | internal/card/state.go:166-273 | the shown state holds every text and every tool in its own place and nothing else, and all reasoning in order |
| CardSummary.MarkedShowsRun | internal/card/state.go:276-318 | a state marked as ended, stopped or continued still shows all of that, keeps final text, error and counts, and closes the text |
| CardSummary.FinalizedShowsRun | internal/card/state.go:276-309 | the final state shows the whole run and ends as the last done or error event said, or else as the watchdog's, stopped or complete |
| CardSummary.FinalTextIsLast | internal/card/state.go:166-273 | the final text is that of the last final-text event, or empty |
| CardSummary.ReasoningConserved | internal/card/state.go:166-273 | the reasoning is the concatenation of all thinking deltas |
| CardSummary.UsageIsLast | internal/card/state.go:166-273 | the four token counts are those of the last usage report, and are available exactly if there was one |
| CardSummary.ErrorIsLast | internal/card/state.go:166-273 | the error message is that of the last error that is neither an interruption nor a timeout |
| CardSummary.ModelIsLast | internal/card/state.go:166-273 | the model is the last one named; an empty name never overwrites it |
| CardSummary.SessionIsLast | internal/card/state.go:166-273 | likewise the session id, which done events name too |
| CardSummary.FooterIsLast | internal/card/state.go:166-273 | the footer and the reasoning mark tell what the agent did last |
| CardState.ErrorLeavesTextStreaming | internal/card/state.go:250-273 | an input on which text is left streaming |
| CardState.LastRunningTool | internal/card/state.go:321-329 | finds the last running tool, and none exactly when none runs |
| CardState.GroupBlocks | internal/card/render.go:117-138 | the groups contain the blocks in order, and adjacent tools are in one group |
| CardState.GroupingIsUnique | internal/card/render.go:117-138 | that description leaves only one grouping |
| CardObjects.CloseStreamingText | internal/card/state.go:154-164 | a fresh slice of closed blocks; the tool entries are shared, not copied |
| CardObjects.ApplyResult | internal/card/state.go:200-226 | the matching tools are replaced by fresh entries, the others shared |
| CardObjects.Reduce | internal/card/state.go:166-273 | the new state object has the reduced view, reaches only old or fresh entries, and the prior state object is unchanged |
| CodexTranslator.Translator.Translate | internal/agent/codex.go:70-111 | the method has exactly the effect and output of its specification |
| CodexTranslator.Translator.CompleteTool | internal/agent/codex.go:168-182 | the method has exactly the effect and output of its specification; `CompletionIsShown` says what that is on the card |
| CodexCard.CompletionIsShown | internal/agent/codex.go:129-282 | after a completion line every block of the tool shows the item's output, and an error exactly if the fields of its type say so; a tool not running on the card is announced as the last block, under the name and input of its type |
| CodexCard.StartIsShown | internal/agent/codex.go:113-240 | a started tool is the last block, running, under the name and input of its type |
| CodexCard.NoToolNoBlock | internal/agent/codex.go:184-240 | an item without id or of another type leaves the card as it is |
| CodexCard.ThreadIsShown | internal/agent/codex.go:87-91 | the thread id and the model are noted |
| CodexCard.ReasoningIsShown | internal/agent/codex.go:139-143 | reasoning is appended, whatever message was held back |
| CodexCard.CompletedTurnIsShown | internal/agent/codex.go:334-352 | a completed turn completes the card, with the held-back message as final text and the usage of the line |
| CodexCard.FailureIsShown | internal/agent/codex.go:372-379 | a failure ends the card with an error that shows its message or the default, cut at the limit |
| CodexTranslator.OpenToolsMeaning | internal/agent/codex.go:113-182 | the open tools of a trace are the uses without a later result of their id |
| CodexTranslator.CardAgreesWithTranslator | internal/agent/codex.go:113-182 | for every line sequence the tools running on the card are exactly the translator's open tools, and every result has an earlier unanswered use |
| CodexTranslator.SameAsEager | internal/agent/codex.go:354-370 | holding a message back changes nothing visible but the last message: the output is that of an eager translator |
| CodexTranslator.OneEnding | internal/agent/codex.go:334-379 | at most one done or error event, nothing after it, and nothing pending once terminal |
| CodexTranslator.MessagesConserved | internal/agent/codex.go:129-166 | messages consumed are the deltas emitted, then the final text, then the pending message, in order |
| CodexTranslator.MessageComesFirst | internal/agent/codex.go:363-370 | a held-back message precedes every other event of a later line |
| CodexTranslator.FinalTextEndsTurn | internal/agent/codex.go:334-352 | a final text is only emitted when the turn ends, and no message follows it |
| CodexTranslator.CardShowsAllMessages | internal/agent/codex.go:334-352 | text blocks plus final text on the card are everything the agent said, but for a pending message |
| OpenCode.MissingText | internal/agent/opencode.go:968-978 | completes the delivered text when it is a prefix, and adds nothing otherwise |
| OpenCode.ReconcileShape | internal/agent/opencode.go:929-965 | at most one text, exactly the message's usage if it has one, and one ending, last, that is done, interrupted, or failed with the server's message or its name |
| OpenCode.RunLifecycle | internal/agent/opencode.go:445-478 | in every reachable state a run is registered exactly while its channel is open, ids are unique, no empty table stays, no channel is closed twice |
| OpenCode.ClosedForGood | internal/agent/opencode.go:556-567 | in every future a closed run receives nothing and is not closed again |
| OpenCode.Backfill | internal/agent/opencode.go:862-891 | over everything that may happen between a poll's comparison and the end it puts to the run: the text deltas of the message on the run's channel add up to the full text (or, when the delivered text is no prefix of it, the delivered text) exactly if the text fanned out in between is the text that was recorded but not fanned out at the comparison; the ending comes last |
| OpenCode.QuietBackfill | internal/agent/opencode.go:847-892 | in particular without a frame in between the text deltas sent add up to the full text if the delivered text is a prefix of it, and otherwise to the delivered text |
| OpenCode.RacingDeltaIsDoubled | internal/agent/opencode.go:500-568 | a run in which a delta that arrives after the comparison is received twice |
| OpenCode.InFlightDeltaIsLost | internal/agent/opencode.go:505-516 | a run in which a delta recorded before the comparison and not yet fanned out is received by nobody |
| OpenCodeServer.OcServer.RegisterRun | internal/agent/opencode.go:445-464 | registers a fresh open run |
| OpenCodeServer.OcServer.CloseRun | internal/agent/opencode.go:466-478 | closes and drops the run if it is still registered |
| OpenCodeServer.OcServer.RecordDelta | internal/agent/opencode.go:500-515 | notes a delta as delivered |
| OpenCodeArrival.StreamArrives | internal/agent/opencode.go:552-556 | from any moment on an open run is sent the events of every frame of its session, unchanged and in order, and no other text |
| OpenCodeArrival.PollCompletes | internal/agent/opencode.go:847-892 | the text sent to a run ended by its poll is all text fanned out since it registered, then what the poll found missing; the last event says how the turn ended |
| OpenCodeArrival.EveryActorCloses | internal/agent/opencode.go:466-568 | a failed prompt, a terminal frame, a poll and the end of the process each close an open run, after exactly their own events |
| OpenCodeArrival.RegisterOpens | internal/agent/opencode.go:445-464 | a new run is open, subscribed, and was sent nothing |
| OpenCodeArrival.AnnounceArrives | internal/agent/opencode.go:120-127 | what the bridge itself announces reaches an open run |
| OpenCodeServer.OcServer.FanOut | internal/agent/opencode.go:516-568 | every run of the session gets the events; a terminal frame closes and drops them all |
| OpenCodeServer.OcServer.EndPoll | internal/agent/opencode.go:876-890 | only a run still registered gets the poll's events and is closed |
| OpenCodeServer.OcServer.ProcessExited | internal/agent/opencode.go:322-334 | every registered run is told and closed once, whatever the order |
| Rpc.IdInjective | internal/agent/codex_appserver.go:376-378 | different request numbers have different ids, in all three spellings |
| Rpc.IdsNeverReused | internal/agent/acp.go:208-212 | no two calls share an id |
| Rpc.OwnResponse | internal/agent/acp.go:289-299 | a call only returns a response with its own id that did arrive, and reports death only when the process is gone |
| Rpc.ReaderNeverBlocks | internal/agent/codex_appserver.go:451-464 | a waiter channel gets at most one send or close, so the reader finds it open and free |
| Rpc.NobodyStranded | internal/agent/codex_appserver.go:374-425 | no waiter is lost but a pi waiter orphaned by a stray reply; after death everybody else can return |
| Rpc.OrphanedByReply | internal/agent/pi.go:326-381 | an orphaned waiter was removed by a failed reply that carried its id |
| Rpc.PiReplyCanOrphan | internal/agent/pi.go:345-360 | a run in which that happens and the response is thrown away |
| Rpc.AcpDeadMeansEmpty | internal/agent/acp.go:107-116 | ACP: once dead, the table of waiters is empty for good |
| Rpc.TableHoldsOpenCalls | internal/agent/codex_appserver.go:898-907 | the table holds only calls that have not returned; when all returned it is empty |
| Rpc.AcceptedOnce | internal/agent/pi.go:430-435 | after the first response looked up for an id, later ones change nothing |
| Rpc.ReturnedForGood | internal/agent/acp.go:225-235 | what a call returned never changes |
| RpcProgress.CallSucceeds | internal/agent/acp.go:202-235 | a call on a live process can be made and returns the response with its own id, for all three clients |
| RpcProgress.LiveCallIsWritten | internal/agent/codex_appserver.go:374-393 | on a live process no client turns a call away: it is filed under a new id, written and waits |
| RpcProgress.ResponseIsReturned | internal/agent/pi.go:430-435 | a waiting call returns the response that comes in, and no other call is touched |
| RpcProgress.CheckIsExact | internal/agent/codex_appserver.go:374-387 | a call is refused exactly if the process is known to be gone |
| RpcProgress.DeadCallIsRefused | internal/agent/acp.go:202-207 | on a dead process a new call is refused and leaves the table as it was |
| RpcProgress.EndIsNoted | internal/agent/acp.go:107-116 | the death of the process, and for Codex the end of the run, set the flag that callers look at |
| RpcProgress.RefusedMeansEnded | internal/agent/codex_appserver.go:374-387 | whoever was refused was refused because the process was gone |
| RpcProgress.FailedWriteIsReported | internal/agent/acp.go:220-225 | a failed write is reported and its entry removed |
| RpcProgress.TimeoutIsReported | internal/agent/codex_appserver.go:394-404 | a timeout is reported and its entry removed |
| RpcProgress.DeathIsReported | internal/agent/pi.go:195-202 | a filed waiter learns of the death of the process |
| Rpc.RpcClient.Begin | internal/agent/acp.go:202-213 | the filing section of the three clients |
| Rpc.RpcClient.GiveUp | internal/agent/codex_appserver.go:421-425 | a failing caller removes its entry and no other |
| Rpc.RpcClient.HandleResponse | internal/agent/pi.go:430-435 | the reader's section: ACP and pi send in it, Codex only takes the entry |
| Rpc.RpcClient.ProcessExited | internal/agent/pi.go:195-202 | every filed channel is closed once and the table emptied, whatever the order |
| PendingQueue.DebounceQueue.Push | internal/bridge/queue.go:33-43 | appends and re-arms, in its own scope only |
| PendingQueue.DebounceQueue.Block | internal/bridge/queue.go:46-56 | blocks and stops the timer, in its own scope only |
| PendingQueue.DebounceQueue.Unblock | internal/bridge/queue.go:59-70 | unblocks and re-arms when messages wait |
| PendingQueue.DebounceQueue.ArmLocked | internal/bridge/queue.go:72-80 | replaces the timer unless blocked |
| PendingQueue.DebounceQueue.Fire | internal/bridge/queue.go:82-95 | takes the whole buffer unless blocked or empty |
| PendingQueue.ScopesAreIndependent | internal/bridge/queue.go:12-17 | in every interleaving of many scopes each scope behaves as on its own |
| PendingQueue.NothingLostOrReordered | internal/bridge/queue.go:33-95 | pushed messages are the taken batches and then the buffer, in order; no batch is empty |
| PendingQueue.TakesTheBuffer | internal/bridge/queue.go:82-95 | a batch is the whole buffer and is never taken while blocked |
| PendingQueue.NoMessageForgotten | internal/bridge/queue.go:59-95 | an unblocked scope with messages has its own timer coming, which takes them all; a blocked one has a run whose end arms a timer |
| PendingQueue.PushRestartsTimer | internal/bridge/queue.go:33-43 | a push replaces the queue's timer by a new one, unless the scope is blocked: then nothing is scheduled |
| PendingQueue.BlockStopsTimer | internal/bridge/queue.go:46-56 | the beginning of a run blocks the scope and stops its timer; the buffer stays |
| PendingQueue.UnblockRestartsTimer | internal/bridge/queue.go:59-70 | the end of a run unblocks the scope and starts a new timer exactly if messages wait |
| PendingQueue.ExpiredTimerTakes | internal/bridge/queue.go:82-95 | an expired timer takes the whole buffer exactly when the scope is unblocked and has messages |
| PendingQueue.QuietMeansDrained | internal/bridge/queue.go:33-95 | when nothing is left to happen every message was handed over |
| PendingQueue.OneRunAtATime | internal/bridge/bridge.go:269-285 | at most one batch is in flight at any time exactly when no batch is taken during another one's flush |
| PendingQueue.UnblockEndsItsOwnRun | internal/bridge/bridge.go:273-276 | then `Unblock` ends the only run in flight, that of the newest batch |
| PendingQueue.TwoTimersTwoRuns | internal/bridge/queue.go:82-95 | a run with two timers, two runs in flight, and an unblock under the second |
| RunCards.Bridge.RotateRunCard | internal/bridge/run_card.go:16-55 | a failed rotation changes nothing; a successful one moves routing, run object and active card to the new stream and finishes the old one |
| RunCards.Bridge.StopRun | internal/bridge/bridge.go:614-627 | removes and reports the run of the scope |
| RunCards.Bridge.StopRunByCardMessage | internal/bridge/bridge.go:632-640 | stops the run the card message routes to |
| RunCards.RotationIsItsSteps | internal/bridge/run_card.go:28-54 | undisturbed, the sections of a rotation amount to the method's change and the run goes on in the new stream |
| RunCards.OneMessageRoutes | internal/bridge/bridge.go:374-383 | a message routes to a scope exactly when it carries the live card, so at most one does; its buttons reach the run that streams into it |
| RunCards.FinishedExactlyOnce | internal/bridge/run_card.go:50-53 | a card that was sent is finished exactly once, when its run no longer streams into it |
| RunCards.RunEndsClean | internal/bridge/bridge.go:361-383 | after a run no message routes to the scope, nothing is registered or listed as active, every card was finished once |
| RunCards.FinishedCardHasEnded | internal/bridge/bridge.go:527-533 | a finished card still streams exactly if the last snapshot before the finishing is that of a refresh click and no done or error event was published when the click read the run |
| RunCards.RefreshShowsPublished | internal/bridge/bridge.go:475-479 | the run object, and a refresh click that read it, hold the fold of the agent events published so far; for a registered run these are all its agent said, but for an event being published |
| RunCards.RefreshCanReviveCard | internal/bridge/commands.go:662-682 | a run in which a refresh click wholly after the closing snapshot makes the finished card stream again |
| RunCards.OutcomeIsShown | internal/bridge/bridge.go:507-531 | in every interleaving the closing snapshot shows every text, tool and count of all agent events, ended as an event said, or else by the watchdog, by a stop before the loop ended, or complete; it never changes again |
| RunCards.ClosingOrigin | internal/bridge/run_card.go:50-53 | every closing snapshot shows the whole run up to the step that stored it, as continued exactly if a rotation stored it |
| RunCards.CardFollowsAgent | internal/bridge/bridge.go:445-474 | what an agent event stores for the live card is the fold of all events with the newest |
| RunCards.RefreshStoresWhatItRead | internal/bridge/commands.go:662-682 | a refresh click stores the fold of the events published when it read the run |
| RunCards.StopIsShown | internal/bridge/bridge.go:507-531 | a stop during the loop unregisters the run, and unless an event ended the card the closing snapshot says stopped |
| RunCards.WatchdogIsShown | internal/bridge/bridge.go:494-531 | likewise the watchdog, and the snapshot says timed out |
| RunCards.CompleteIsShown | internal/bridge/bridge.go:507-531 | without either the snapshot says complete |
| RunCards.HeartbeatShowsRun | internal/bridge/bridge.go:480-493 | a heartbeat stores the fold of all events so far, while the run has not ended |
| RunCards.RunCanStart | internal/bridge/bridge.go:358-378 | a run whose card could be sent comes into its loop, registered, saved and routed |
| RunCards.RunCanEnd | internal/bridge/bridge.go:507-533 | from its loop a run can always come to its end |
| RunCards.LoopEndSeesStops | internal/bridge/bridge.go:507-512 | the end of the loop sees a stop or the watchdog exactly if it came before |
| RunCards.LateStopShowsComplete | internal/bridge/bridge.go:614-629 | a run in which a stop after the loop ended is answered as done and the card says complete |
| RunCards.ClosingStays | internal/bridge/bridge.go:531-533 | a closing snapshot is stored once and stays |
| RunCards.SecondRunBreaksRouting | internal/bridge/bridge.go:358-383 | two runs of one scope route two messages to it, and the end of the first unregisters the second |
| Access.Contains | internal/policy/access.go:126-136 | finds exactly the listed non-empty ids |
| Access.AccessIsExact | internal/policy/access.go:50-113 | who passes each of the three checks, as an if-and-only-if over owner and lists |
| Access.ReasonsAreExact | internal/policy/access.go:66-113 | the reason given is the first that holds |
| Access.WithoutParts | internal/bridge/access.go:220-230 | removal works part by part, so the rest keeps its order |
| Access.AddUnique | internal/bridge/access.go:211-218 | appends exactly when absent |
| Access.RemoveId | internal/bridge/access.go:220-230 | removes every occurrence, keeps the rest in order |
| Access.MentionUserTargets | internal/bridge/access.go:200-209 | the mentioned people in order: exactly those who are no bots and have an id |
| Access.AppliedMeaning | internal/bridge/commands.go:467-493 | a change alters the membership of its own list by exactly its ids and keeps lists free of duplicates |
| Access.RemoveUndoesInvite | internal/bridge/commands.go:551-577 | removing what was just invited is the same as only removing |
| Access.AccessControl.RefreshOwner | internal/bridge/access.go:46-76 | the new owner, and when the cache is rewritten |
| Access.AccessControl.MutateAccess | internal/bridge/access.go:159-190 | all or nothing: saved and live lists become the changed saved lists, or stay |
| Access.ChangeMeaning | internal/bridge/commands.go:406-577 | a command asks for a change exactly if its last list word is user or admin with people mentioned, or group outside private chats, and it is no invite of all groups; the change is about exactly those ids |
| Access.AccessControl.Handle | internal/bridge/commands.go:406-594 | changes the lists exactly when the sender may, the command asks for something, and load and save succeed; then the list of the last list word gains what is invited or loses what is removed, and the others stay |
| Access.CommandTakesEffect | internal/bridge/commands.go:406-594 | in every reachable state such a command, undisturbed, makes the live lists the old saved ones with exactly its ids added or taken away |
| Access.RefusedChangesNothing | internal/bridge/commands.go:396-404 | a command of somebody who may not, or that asks for nothing, changes nothing |
| Access.RefreshIsCached | internal/bridge/access.go:46-86 | the owner the service names is known at once and cached; a failed refresh keeps a known owner, or else takes the cached one |
| Access.OwnerStaysKnown | internal/bridge/access.go:46-76 | a known owner stays known under every interleaving |
| Access.OwnerIsNeverLockedOut | internal/policy/access.go:63-113 | hence the owner always passes all three checks |
| Access.ListsStayDistinct | internal/bridge/access.go:159-230 | lists that start without duplicates stay so, saved, live and in flight |
| Access.EveryEntryWasInvited | internal/bridge/commands.go:396-510 | every listed id was there initially or was named by an invite to that list of somebody who was owner or admin at the check |
| Access.NoChangeLost | internal/bridge/access.go:159-190 | at every moment of a run the saved lists are all saved changes in order, exactly if no save overwrote lists on which its change would have come out differently |
| Access.FreshSavesLoseNothing | internal/bridge/access.go:159-190 | no change is lost if nothing is saved between the load and the save of any command |
| Access.StaleSaveLosesInvite | internal/bridge/access.go:159-190 | a run in which a confirmed invite is lost |
| Numerals.DecimalRoundTrip | internal/bridge/commands.go:253 | reading the decimal text gives the number back |
| TextFormats.FormatInteger | internal/bridge/commands.go:252-262 | the loop yields the sign and the digits in groups of three |
| TextFormats.FormatPiInteger | internal/agent/pi_models.go:188-194 | the loop groups the text including its sign |
| TextFormats.FormattedReadsBack | internal/bridge/commands.go:252-262 | for every integer: without its commas the formatted text is the decimal text with its sign, and reads back as the integer |
| TextFormats.FormattedGroups | internal/bridge/commands.go:252-262 | for every integer: after the sign the first group has one to three digits, all others exactly three |
| TextFormats.FormattersAgree | internal/agent/pi_models.go:188-194 | the formatters agree exactly on the non-negative numbers and on negative ones whose digit count is no multiple of three |
| TextFormats.FormattersDisagree | internal/agent/pi_models.go:188-194 | they differ at -123 |
| TextFormats.UrlQueryEscape | internal/agent/opencode.go:1350-1360 | the loop yields the escape of every byte in order |
| TextFormats.UnescapeEscaped | internal/agent/opencode.go:1350-1360 | percent-decoding (section 2.1 of RFC 3986) undoes the escape for every byte string |
| TextFormats.EscapedIsWellFormed | internal/agent/opencode.go:1350-1360 | the output has only unreserved characters (section 2.3 of RFC 3986), slashes and complete escapes |
| TextFormats.SplitBuiltModel | internal/agent/opencode.go:132-145 | splitting a built reference recovers the model exactly when the provider has no slash and the id no sharp |
| TextFormats.BuildSplitModel | internal/agent/opencode.go:213-220 | building what was split gives the text back exactly unless it spelled out an empty or default variant |
| TextFormats.ParseBuiltPiModel | internal/agent/pi_models.go:152-167 | parsing a built pi reference recovers provider and id exactly when the provider has no slash and neither has spaces at its ends |
| Pricing.Lookup | internal/pricing/pricing.go:74-82 | the first match of the sorted table is a longest matching prefix, and nothing is returned exactly when nothing matches |
| Pricing.OrderOfTiesIsIrrelevant | internal/pricing/pricing.go:52-55 | with different prefixes the longest match is unique and the same in every arrangement of the table |
| Pricing.RegisteredPriceIsStable | internal/pricing/pricing.go:30-55 | for the registered prices: whatever arrangement the sort leaves, a model has one longest match |
| Pricing.BilledIsContext | internal/card/state.go:117-133 | input plus cache billed is the context for all counts but one exact family of negative ones; the total is that plus output and reasoning |
| Pricing.RatesPerMillion | internal/pricing/pricing.go:84-104 | a million tokens of one kind cost exactly the rate of their kind |
| Pricing.CostsAddUp | internal/pricing/pricing.go:84-104 | costs add up over requests whose cached tokens are part of their input |
| Pricing.MultiplierScales | internal/pricing/pricing.go:84-104 | the peak multiplier scales the cost |
| Pricing.MoreOutputCostsNoLess | internal/pricing/pricing.go:100-104 | at rates that are not negative more output tokens never lower the cost, before or after rounding |
| Pricing.Calculate | internal/pricing/pricing.go:84-115 | the cost is the exact cost of the longest match rounded to ten-thousandths, so within 0.00005 |

## Left out

- Network, process, file and chat calls, JSON decoding and untyped maps: they appear as steps that
  may succeed, fail or reply, and events start out decoded.
- Wording and layout of cards, prompts and replies; `Render` is modelled only in its grouping and
  its `streaming_mode`.
- Clocks: timers may fire at any time. Only the throttle of the card pump is modelled with time.
  `DurationMs`, which the run loop writes into a shown state in place, and the price shown on the
  card are not part of the reducer here.
- Random ask ids and nonces: a new ask gets an id that was not used before.
- `Submit` with explicit overrides, `FindFreeformByChat`, `PendingCount`, and the dispatcher's
  `OnSettle` notification.
- The Codex item helpers that turn items into tool text are reduced to decoded tool uses and
  results; the app-server notifications are not modelled.
- OpenCode: `translate` and the part kinds, automatic permission replies, and the one event loop per
  directory. Run channels never fill, so no event is dropped there. Runs are ids with a table of
  channel values rather than shared pointers.
- pi: the run slots. Only the table of pending commands is modelled; a command that waits for its
  response never brings its own id.
- `runBatch` outside its cards: attachments, prompt, session stores, bindings, and the session and
  thread ids it fills into the shown state from the stored session. Saving and removing
  an active card is one step, though the file is read and written without a lock across scopes.
  Quick replies, which reuse the same rotation, are not modelled.
- RunCards.OneMessageRoutes: speaks of non-empty message ids only, because a card sent without an
  id shares the empty route with any other such card; ids that are not empty are taken to be unique.
- RunCards.FinishedCardHasEnded: a stream here keeps the latest snapshot and `Finish` shows it.
  CardStream proves that (`LastWrite`) only while no push failed; after a failed push the
  last snapshot may never reach the card.
- PendingQueue.OneRunAtATime: RunCards takes its condition for granted. `BeginRun` starts a run of a
  scope only when none is there; `SecondRunBreaksRouting` shows what a second run would do.
- Access.EveryEntryWasInvited: no edits of the configuration file from outside, and the owner is known
  at the start.
- Pricing.Lookup: lower-casing is a parameter that stands for the library function; the table is any
  table sorted longest prefix first, as the library sort leaves it.
- Pricing.Calculate: over the reals, not over floating-point numbers; whether the clock shows peak
  hours is a parameter, and of the label only the peak mark is modelled.
- The supervisor, process registry, bindings and session stores, approval decisions: mostly single
  branches that would only add easy members.
