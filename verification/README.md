# Holler client: a verified model of the session and connection pipeline

Holler's client keeps local coding-agent sessions reachable over one WebSocket
connection. A prompt that comes in over the wire is queued by a per-session
manager task, driven into an agent by an ACP command loop (or an HTTP attach
loop), and comes back as a stream of driver events; the connection's session
loop batches those into `reply` frames and announces blocked sessions, while an
outer loop reconnects with backoff. This project models those tasks as step
machines joined by FIFO channels, ties each imperative loop to its step
function, and proves what the whole pipeline keeps over every run. It also
covers the two parser/printer pairs the client depends on: `--server` addresses
and the envelope codec on JSON trees.

## How to read it

Each task has a `State`, a `Stimulus` (one thing its `select!` can pick, with
everything the outside world decides: whether a send worked, what a request
returned, what time it is, in what order a hash map is walked), a `Step`
function and a `Run` over a script of stimuli. Every theorem quantifies over all
scripts, so over every interleaving and every pattern of failures. Where the
code updates local state in place, a class does the same and each of its methods
is proved to take exactly the corresponding step; the theorems then speak about
the code's own branches.

Each of these is also told from its stimuli alone, with the wire's own literals and
without a look at the modelled state: when a driver died, what is held back and
since when, which frames are called for, when a loop ends. One theorem each says
that the model is exactly that account, over every run
(`ManagerHistory.StateIsHistory`, `Acp.LoopFollowsHistory`,
`WireHistory.ConnectionIsHistory`, `HttpStream.LoopFollowsItsStimuli`,
`Reconnect.LoopIsHistory`).

`{:induction false}` keeps Dafny from trying an induction of its own. It stands on
the proofs by explicit induction, which call themselves, and on some main
statements over whole runs, which instantiate such a proof.

| file | what it holds |
|---|---|
| `Common.dfy` | options, sequence facts, driver events, turns and the blocked flag as folds over events |
| `ReplyCoalescer.dfy` | the batching buffer of streamed reply text |
| `SessionLoop.dfy` | one connection as a step machine |
| `Connection.dfy` | the same loop as it runs, updating its state in place |
| `WireTheorems.dfy` | reply-stream refinement, what an ending loses, reply ids, `session_blocked` frames, silent ticks |
| `WireAnswers.dfy` | requests and their answers, heartbeats, detaching |
| `WireHistory.dfy` | one connection told from its stimuli: text held back, frames due, how it ends |
| `SessionManager.dfy` | the per-session task: busy-turn queue, interrupts, stall timeout |
| `SessionHistory.dfy` | a session told from its stimuli: the driver's death, arrivals, hand-overs, turn ends |
| `AcpDriver.dfy` | the spawn-mode command loop, and the same told from its stimuli |
| `Turns.dfy` | manager and command loop composed |
| `Speech.dfy` | what the agent sent for each prompt, against what was read into each turn |
| `Delivery.dfy` | manager, event channel and successive connections composed |
| `TurnIds.dfy` | which turn a reply frame belongs to, and the id it carries |
| `EndToEnd.dfy` | both compositions joined at the manager and at each prompt: from prompts to frames |
| `Reconnect.dfy` | backoff, the reconnect loop, reading the live-state file |
| `HttpAttach.dfy` | event-stream framing, event translation, block polling |
| `HttpTheorems.dfy` | chunk independence, translation and polling over whole streams |
| `HttpStream.dfy` | the stream read character by character, and the loop told from its stimuli |
| `Answers.dfy` | resolving an operator's answer against the pending questions |
| `Text.dfy` | the string operations the parsers use |
| `ServerAddress.dfy` | parsing and printing server addresses |
| `Proto.dfy` | the envelope codec at JSON-tree level |

## What the code does that its comments do not say

- A `StopReason` that arrives after the stall timeout has already cleared a turn
  clears `busy` for the next turn while the agent is still running it
  (`LateStopClearsRunningTurn`), and a prompt handed over after a forced clear can
  be dropped by the command loop with no event for it (`DiscardAfterForcedClear`).
  A `busy` that is true is always right about a live driver; one that is false is
  right iff every forced clear has been paid for, by a stop reason the manager read
  while idle or by a discarded prompt (`BusyIsTrueIff`), and the balance behind
  that is exact in every reachable state (`TurnsBalanceExactly`).
- Text the agent sends after its stop reason is not read until the next prompt is
  in flight, and then counts as that turn's. A turn holds its answer alone iff
  nothing was sent unasked before its prompt (`TurnsReadWhatWasSent`).
- Text still in the coalescer when a connection ends is not resent. An ending
  loses nothing of a session iff nothing of it was buffered and it was not its own
  reply that could not be sent, or, when a flush failed part way, iff the session's
  batch had already gone out (`NothingLostIff`).
- The version check narrows `v` to 32 bits first, so a frame with `v` 2^32 + 1
  decodes like version 1 (`VersionCheckIsModulo`, `OtherVersionsPass`).
- A prompt whose `meta` is an explicit `null` reads back without `meta`; it is
  the only envelope that does not round-trip (`EnvelopeRoundTripsIff`).
- A live-state stamp at most one heartbeat old always reads as live iff the
  heartbeat is at least 667 ms: both timestamps and the limit are truncated to
  whole seconds (`FreshStampsReadLiveIff`).
- A bracketed host that itself opens with `[` and holds no colon is accepted, but
  its canonical form does not parse at all (`CanonicalRoundTripsIff`,
  `DoubleBracketIsUnterminated`).
- A return of `run` leaves the detach marker on disk iff it is the error of a
  rejected credential and the detach was asked for while that handshake was under
  way (`MarkerLeftIff`).
- In attach mode a posted prompt or a server `busy` event announces `Working`
  while a question is still pending (`WorkingWhilePending`). The flag agrees with
  what is pending iff nothing has overridden it since it was found
  (`BlockedIffPendingUnspoken`).
- A question request that asks nothing hides any later question of the same
  session from the poll (`FoundMeaning`).
- An option label typed as an answer is chosen iff it holds no comma and, read as
  an in-range index, names an option that equals it, or else, read as no such
  index, has no space around it to lose (`LabelsRoundTripIff`).

## Model

| member | source | states |
|---|---|---|
| `Coalescing.PushMeaning` | src/reply_coalescer.rs:97-113 | a resident batch is non-empty, measured and under the cap; `push` returns a batch iff the cap is reached, whole and with the new text, and the cap was not reached without it; the window opens with the first arrival and stays there; no sibling changes |
| `Coalescing.Utf8WidthIsLeast` | src/reply_coalescer.rs:103 | the cap counts bytes: a character takes the fewest bytes of UTF-8 that hold it |
| `Coalescing.Utf8LenAdds` | src/reply_coalescer.rs:103 | byte lengths add up, character by character |
| `Coalescing.ExpiredIsFilter` | src/reply_coalescer.rs:133-138 | the sessions picked are exactly those resident and elapsed, none twice |
| `Coalescing.ReleaseIsWhole` | src/reply_coalescer.rs:140-147 | each session keeps its whole batch or loses it into exactly one released batch |
| `Coalescing.DueIsExact` | src/reply_coalescer.rs:128-148 | `due` releases exactly the elapsed sessions, whole, whatever the map order, and leaves the others as they were |
| `Coalescing.TimerMakesProgress` | src/reply_coalescer.rs:132-159 | `due` releases something iff the deadline has been reached, and afterwards the next deadline is absent or strictly later |
| `Coalescing.ReplyCoalescer.constructor` | src/reply_coalescer.rs:82-88 | starts empty with the given window and cap |
| `Coalescing.ReplyCoalescer.Add` | src/reply_coalescer.rs:97-113 | the in-place `push` takes the step that `PushMeaning` describes, opening time included, and keeps the representation invariant |
| `Coalescing.ReplyCoalescer.Take` | src/reply_coalescer.rs:121-126 | returns and removes exactly what one session had buffered |
| `Coalescing.ReplyCoalescer.ReleaseDue` | src/reply_coalescer.rs:132-148 | the two-pass collect-then-remove is the specified release |
| `Coalescing.ReplyCoalescer.NextDeadline` | src/reply_coalescer.rs:150-159 | none iff nothing is buffered, else the earliest window end of any session |
| `WireTheorems.SendReplyTurns` | src/connection.rs:552-595 | a batch of one as `text`, a larger one as `chunks`, an empty one only with `done`: read back, the frame carries exactly the batch |
| `WireTheorems.StepRefines` | src/connection.rs:956-1068 | each step keeps sent text plus buffered text equal to the text received, turn by turn |
| `WireTheorems.ReplyStreamRefines` | src/connection.rs:956-1068 | for every interleaving of sessions, updates, timer and byte-cap flushes, a session's frames cut at `done` are the update texts between its stop reasons, in order; a connection that broke off sent a cut of them |
| `WireTheorems.OneDonePerStopReason` | src/connection.rs:982-995 | exactly one `done` frame per stop reason while the connection is up |
| `WireTheorems.BufferedTextDiesWithTheConnection` | src/connection.rs:663-667 | a concrete run in which buffered text never reaches the wire |
| `WireTheorems.NothingLostIff` | src/connection.rs:663-667 | for every step that ends a connection, a session's whole stream got out iff nothing of it was buffered and its own reply was not the one that failed, or the failing flush had already sent its batch |
| `WireTheorems.SendAllSendsFirst` | src/connection.rs:1055-1067 | a flush sends batch by batch: what gets out is exactly the first ones, up to the send that fails |
| `WireTheorems.BuffersStayWellFormed` | src/connection.rs:968-981 | over every run all resident batches are non-empty, measured and under 64 KiB |
| `WireTheorems.LastPromptIsLatest` | src/connection.rs:763-769 | `last_prompt_id` holds the latest prompt accepted since the session's last stop reason, and nothing if there is none |
| `WireTheorems.ReplyCorrelation` | src/connection.rs:963-966 | every reply frame, streamed, debounced or terminal, carries that id, or one minted in that step |
| `WireTheorems.MintedIdsAreDistinct` | src/connection.rs:1055-1059 | a minted id is never used for a second reply frame of the connection, not even within one flush |
| `WireTheorems.TurnReusesPromptId` | src/connection.rs:655-663 | with prompts sent one at a time, all frames of a turn reuse the prompt's id |
| `WireTheorems.BlockedFramesAlternate` | src/connection.rs:1004-1041 | a session's `session_blocked` frames strictly alternate from true, and the last one sent matches membership |
| `WireTheorems.SecondSilentTickEnds` | src/connection.rs:919-936 | the loop never survives two ticks with no `pong` between them |
| `WireAnswers.EveryRequestIsAnswered` | src/connection.rs:701-897 | every ping, query, interrupt, answer and refused prompt is answered exactly once, with its own id and verdict (served, or refused with its error code), in order of arrival |
| `WireAnswers.HeartbeatsKeepTheStampFresh` | src/connection.rs:919-949 | while up: one `ping` per tick, the stamp is the latest tick's, `awaiting_pong` iff a tick is unanswered, and no two ticks went unanswered |
| `WireAnswers.LiveConnectionReadsConnected` | src/connection.rs:937-948 | with a heartbeat of at least 667 ms, a connection ticking on time reads as connected to other processes |
| `WireAnswers.ConnectionEndsClientIff` | src/connection.rs:1158-1208 | the end of a connection ends the client iff one of its polls saw the marker, or the wait that follows finds one dropped later; after any other end it reconnects |
| `WireHistory.ResidentIsHeld` | src/connection.rs:968-995 | while up, a session has text resident exactly while its stimuli say some is held back, that text, since the first of it came |
| `WireHistory.FlushLetsGoIff` | src/connection.rs:1047-1067 | a flush that walks over a resident session lets go of it iff the first text it holds came 50 ms ago or more |
| `WireHistory.MembershipIsTold` | src/connection.rs:1004-1041 | while up, a session is in `blocked_sessions` iff it was last told to be blocked, by the resync or since |
| `WireHistory.ConnectionIsHistory` | src/connection.rs:604-1071 | over every run, to its end: the frames sent are exactly those the stimuli call for, in order and in their wire shape, cut at the first send that fails; the connection ends as dropped iff the peer closed or failed, a tick was unanswered or a send failed, and as detached iff a poll saw the marker |
| `ConnectionRuntime.SessionLoop.constructor` | src/connection.rs:648-667 | every connection starts with empty maps, an empty buffer and no pong awaited |
| `ConnectionRuntime.SessionLoop.SendReplyChunks` | src/connection.rs:552-595 | the wire shape split sends the specified frame, or none |
| `ConnectionRuntime.SessionLoop.TakeReplyId` | src/connection.rs:963-966 | the remembered prompt id, or a new one |
| `ConnectionRuntime.SessionLoop.HandleEvent` | src/connection.rs:956-1043 | the event arm, over the mutable buffer, takes the specified step |
| `ConnectionRuntime.SessionLoop.FlushDue` | src/connection.rs:1047-1068 | the debounce arm empties the due batches, then sends until one send fails |
| `ConnectionRuntime.SessionLoop.HandleFrame` | src/connection.rs:676-955 | inbound frames, closing, the heartbeat and the detach poll take the specified steps, which `WireHistory.ConnectionIsHistory` pins from outside |
| `ConnectionRuntime.SessionLoop.Handle` | src/connection.rs:675-1069 | one firing of the `select!` is one step |
| `ConnectionRuntime.SessionLoop.ResyncBlocked` | src/connection.rs:626-646 | the resync inserts and announces every blocked session until a send fails |
| `ConnectionRuntime.SessionLoop.Serve` | src/connection.rs:604-1071 | the whole `session_loop` is the run the theorems speak about |
| `Manager.SessionTask.constructor` | src/session_manager.rs:428-447 | a session starts idle, unblocked, alive and disarmed |
| `Manager.SessionTask.PromptDriver` | src/session_manager.rs:458-462 | a hand-over sets `busy`, a failed one marks the driver dead |
| `Manager.SessionTask.FinishTurn` | src/session_manager.rs:508-518 | ending a turn disarms, clears `busy` and hands over the queue's head |
| `Manager.SessionTask.AcceptPrompt` | src/session_manager.rs:455-463 | a prompt is queued while busy, else handed over |
| `Manager.SessionTask.CancelTurn` | src/session_manager.rs:464-482 | an interrupt reaches only a turn in flight and arms the deadline only when acknowledged by a live driver |
| `Manager.SessionTask.ForwardEvent` | src/session_manager.rs:498-519 | a driver event moves `blocked`, is forwarded, and a stop reason ends the turn |
| `Manager.SessionTask.Handle` | src/session_manager.rs:449-573 | one firing of either loop, alive or dead, is one step of the run that `ManagerHistory.StateIsHistory` pins from outside |
| `Manager.SessionTask.Serve` | src/session_manager.rs:421-575 | the whole `run_session` is the run the theorems speak about |
| `Manager.AlwaysCoherent` | src/session_manager.rs:449-545 | alive with work queued implies busy; an armed deadline implies busy |
| `Manager.FifoNoLoss` | src/session_manager.rs:453-545 | handed over, then the at most one refused prompt, then the queue, is exactly what was received while the session's `driver_alive` was set, in order |
| `ManagerHistory.StateIsHistory` | src/session_manager.rs:421-575 | over every run a session is exactly what its stimuli tell: stopped, driver dead, busy, blocked, deadline, queue, hand-overs, events forwarded and replies |
| `ManagerHistory.NothingOvertakesOrIsLost` | src/session_manager.rs:453-545 | the driver is dead iff its event stream ended or a hand-over was refused while the session ran; hand-overs, the refused prompt if there is one, and the queue are exactly the prompts that arrived before that, in order |
| `ManagerHistory.DeadDriverFreezesTheSession` | src/session_manager.rs:546-573 | after the driver's death no later stimulus changes the queue, the hand-overs, `busy`, `blocked`, the deadline or what is forwarded |
| `Manager.QueriesLeaveOrderAlone` | src/session_manager.rs:464-492 | interrupts, answers and queries change neither the hand-overs nor the queue nor the flags |
| `Manager.BlockedFollowsForwarded` | src/session_manager.rs:500-507 | `blocked` is the fold of every status forwarded |
| `Manager.BusyIsOneOutstanding` | src/session_manager.rs:456-462 | `busy` iff a prompt was handed over and no turn has ended since, told from hand-overs and turn ends alone; a hand-over happens only when none is outstanding or in the step that ends its turn |
| `Manager.CallsAreAnsweredTruthfully` | src/session_manager.rs:464-492 | each call is answered once, at once and truthfully, judged by the hand-overs, turn ends and statuses forwarded, after the driver's death too |
| `Manager.DeadlineStaysArmed` | src/session_manager.rs:470-480 | until the turn ends, the deadline stays at the latest acknowledgement plus five seconds, whatever else arrives |
| `Manager.InterruptedTurnEndsInTime` | src/session_manager.rs:464-544 | after an acknowledged interrupt and whatever else arrives, a turn that has not ended five seconds after the latest acknowledgement is ended by the timeout, which starts the head of whatever has queued or leaves the session idle; an expiry any earlier leaves the turn running |
| `Manager.QueueDrains` | src/session_manager.rs:508-544 | each turn end starts exactly the next queued prompt, so n turn ends drain a queue of n in order |
| `Manager.LateStopReasonClearsNextTurn` | src/session_manager.rs:499-518 | a concrete run in which a late stop reason clears the next turn's `busy` |
| `Acp.RunCommandLoop` | src/acp_driver.rs:340-386 | the command loop, over its local variables, takes the steps that `Acp.LoopFollowsHistory` pins from outside |
| `Acp.LoopFollowsHistory` | src/acp_driver.rs:340-386 | over every run: the loop has returned iff its handle was dropped, a prompt taken while idle or a cancel could not be sent, or the agent failed while a prompt was unanswered; a prompt is in flight iff one is unanswered; cancels passed on, fates of prompts and events are those the stimuli call for |
| `Acp.EmitsWholeTurns` | src/acp_driver.rs:356-379 | every run emits Working, updates, Idle, stop reason, once per prompt sent to the agent; only the last turn can be open |
| `Acp.StepTells` | src/acp_driver.rs:347-384 | each closed turn of the event stream is the texts read while one prompt sent to the agent was in flight, in order |
| `TurnPipeline.StepKeeps` | src/acp_driver.rs:345-385 | every action of either task, the agent or the clock keeps the exact balance and the channel links |
| `TurnPipeline.TurnsBalanceExactly` | src/session_manager.rs:453-544 | in every reachable state: prompts in the channel, the turn in flight, unread stop reasons, discards, prompts lost with the loop and stop reasons read while idle add up to `busy` plus forced clears; discards and idle stop reasons never exceed forced clears |
| `TurnPipeline.BusyIsTrueIff` | src/session_manager.rs:499-518 | with the loop up, what it has outstanding is exactly the turn `busy` counts plus the forced clears not yet paid for by an idle stop reason or a discard; a true `busy` is always right, a false one iff every forced clear is paid for |
| `TurnPipeline.TurnsAreConserved` | src/session_manager.rs:453-544 | the corollary on forced clears: the driver's load stays within `busy` plus forced clears, discards never exceed them, and before the first one it is an equality with none discarded |
| `TurnPipeline.PromptsKeepTheirOrder` | src/acp_driver.rs:302-314 | from arrival to the agent nothing overtakes or is lost, and events come back in order; before a forced clear every prompt taken was really started |
| `TurnPipeline.ExchangesFollowArrivals` | src/acp_driver.rs:376-380 | before a forced clear the k-th exchange with the agent is over the k-th prompt that arrived, even after the driver's death |
| `TurnPipeline.InterruptsAreCancels` | src/session_manager.rs:464-482 | with the loop up, the cancels passed to the agent and those still in its channel are exactly the interrupts that found a turn in flight; callers hear of a cancel for exactly those and for the ones that got through over HTTP after the loop was gone |
| `TurnPipeline.NothingUnheard` | src/session_manager.rs:494-497 | unless a hand-over was refused, the manager stops listening only when every event emitted has been forwarded |
| `TurnPipeline.LateStopClearsRunningTurn` | src/session_manager.rs:499-518 | a concrete run of both sides that ends with `busy` false and the agent in the middle of a turn |
| `TurnPipeline.DiscardAfterForcedClear` | src/acp_driver.rs:350-351 | a concrete run in which a prompt is silently dropped, so the bound is met |
| `DriverEvents.FoldIsLastStatus` | src/session_manager.rs:500-507 | a session is blocked exactly while the status announced last says so |
| `DeliveryPipeline.BlockedSurvivesReconnect` | src/connection.rs:626-646 | once the answer to a connection's resync question has come in, however much was forwarded meanwhile, and at every later step, folding the unread statuses over membership gives the manager's flag; with none unread the last frame tells the truth |
| `DeliveryPipeline.EventsReachConnectionsInOrder` | src/connection.rs:956-957 | across reconnects every forwarded event is in exactly one place, in order, and each connection's frames regroup the events it took |
| `DeliveryPipeline.UnreadDecides` | src/connection.rs:616-646 | replaying unread statuses over their own outcome changes nothing, which is why a resync ahead of the channel is safe |
| `AgentSpeech.TurnsReadWhatWasSent` | src/acp_driver.rs:345-385 | a finished turn is what the agent sent between its stop reasons: texts sent unasked before the prompt, then its answer; the answer alone iff there were none |
| `EndToEnd.ManagersAgree` | src/session_manager.rs:421-427 | the turn side and the wire side see one and the same manager over every joint run |
| `EndToEnd.PromptsAreAnsweredInOrder` | src/connection.rs:956-995 | on any connection each turn closed on the wire is exactly what the agent sent for one prompt, in order, going on where earlier connections left off; before a forced clear those are the prompts that arrived, none skipped |
| `EndToEnd.KthTurnAnswersKthPrompt` | src/connection.rs:956-995 | on the first connection, before a forced clear, the k-th turn closed on the wire is what the agent sent for the k-th prompt that arrived, which is its answer alone iff it had sent nothing unasked |
| `TurnIds.StepIndexed` | src/connection.rs:763-769 | as long as nothing is said before a prompt has come, every reply frame of a session's k-th turn carries the k-th prompt's id |
| `EndToEnd.FramesCarryTheirPromptsId` | src/connection.rs:655-663 | on a first connection, before a forced clear, with each prompt sent after the previous turn's stop reason was taken: every reply frame of the k-th turn carries the id of the k-th prompt, and the turn is what the agent sent for that prompt |
| `Reconnect.ShiftNeverSaturates` | src/connection.rs:1078-1080 | neither the shift clamp nor 64-bit saturation ever changes the ceiling |
| `Reconnect.BackoffIsFullJitter` | src/connection.rs:1077-1083 | a wait never exceeds min(30 s, 2^(n-1) s) and every value up to it can be drawn |
| `Reconnect.SleepOrDetach` | src/connection.rs:1099-1111 | detaches iff the marker falls within a non-zero wait, at the end of the 500 ms slice it falls in; otherwise sleeps the whole delay |
| `Reconnect.StreakTotal` | src/connection.rs:1201-1204 | n consecutive waits total at most 31 + 30(n-5) seconds from the fifth on |
| `Reconnect.ReconnectIsBounded` | src/connection.rs:1134-1209 | for every sequence of outcomes: no state file after a return, no marker after an `Ok`, "reconnecting" on disk between tries, every wait and their total bounded |
| `Reconnect.WaitsCountFromHandshake` | src/connection.rs:1156-1204 | over every run still going there has been one wait per pass since the last handshake, and the latest is within the ceiling that count allows |
| `Reconnect.LoopIsHistory` | src/connection.rs:1122-1210 | over every sequence of passes: whether the loop goes on, and how it returns, what each wait is drawn from (at most 1, 2, 4, 8, 16, then 30 s) and everything written to the live-state file are as the passes tell; only the very first try announces itself as connecting |
| `Reconnect.FileIsLastWritten` | src/connection.rs:189-221 | the live-state file holds what was last done to it |
| `Reconnect.OnlyRejectionErrs` | src/connection.rs:1189-1192 | `run` errs iff the credential was refused on some pass |
| `Reconnect.MarkerLeftIff` | src/connection.rs:1137-1192 | a return leaves the marker iff it is the error of a rejected credential and the detach was asked for during that handshake |
| `Reconnect.RejectionLeavesMarker` | src/connection.rs:1189-1192 | a concrete run whose error return leaves the detach marker behind |
| `Reconnect.ReconnectLoop.constructor` | src/connection.rs:1134 | the loop starts with no failed attempts, over whatever files were left |
| `Reconnect.ReconnectLoop.ReturnDetached` | src/connection.rs:1137-1141 | returning for a detach removes both files |
| `Reconnect.ReconnectLoop.BackOff` | src/connection.rs:1201-1208 | counting, marking and waiting take the specified step, detaching only if the wait polls |
| `Reconnect.ReconnectLoop.TryOnce` | src/connection.rs:1136-1209 | one pass of the loop is one step |
| `Reconnect.ReconnectLoop.Serve` | src/connection.rs:1122-1210 | the whole of `run` is the run the theorems speak about |
| `Reconnect.OldStampIsStale` | src/connection.rs:243-246 | a stamp three heartbeats old never reads as live |
| `Reconnect.FreshStampIsLive` | src/connection.rs:243-246 | a stamp at most one heartbeat old reads as live, for heartbeats of 667 ms and more |
| `Reconnect.FreshNamesReadBack` | src/connection.rs:247-252 | while a stamp is fresh each of the three names reads back as its own state and any other content as disconnected |
| `Reconnect.FutureStampIsStale` | src/connection.rs:243-246 | a stamp a second or more ahead of the clock never reads as live |
| `Reconnect.FreshStampsReadLiveIff` | src/connection.rs:129-131 | 667 ms is exactly the threshold |
| `HttpAttach.SplitFramesConcat` | src/http_attach_driver.rs:737-740 | splitting in two goes yields the same frames and leftover as splitting at once |
| `HttpAttach.SplitFramesIsExact` | src/http_attach_driver.rs:738-740 | no frame and no leftover holds a break, and gluing them back gives the text |
| `HttpAttach.LinesUndoUnlines` | src/http_attach_driver.rs:741 | lines come back whole under either line ending, and so does a last line that has no ending, as a frame's last line has none |
| `HttpAttach.FoundMeaning` | src/http_attach_driver.rs:810-862 | what blocks a session: its first question if that asks anything, else its first permission, else nothing; a failed request counts as an empty list |
| `HttpAttach.HttpLoop.constructor` | src/http_attach_driver.rs:670-690 | the loop starts with nothing read, known or pending |
| `HttpAttach.HttpLoop.TranslateEvent` | src/http_attach_driver.rs:864-914 | an event of this session moves the roles, the interrupt flag and the events as specified |
| `HttpAttach.HttpLoop.ReadEvent` | src/http_attach_driver.rs:744-750 | one decoded event, with the interrupt flag possibly set just before it |
| `HttpAttach.HttpLoop.ReadFrame` | src/http_attach_driver.rs:741-751 | of a frame, exactly the `data: ` lines that decode to this session's events are translated, in order, with interrupts landing between any two; `HttpStream` says which lines those are |
| `HttpAttach.HttpLoop.ReadChunk` | src/http_attach_driver.rs:735-753 | draining frame by frame is handling all complete frames at once; it ends, leaving no break in the buffer |
| `HttpAttach.HttpLoop.PollPendingBlock` | src/http_attach_driver.rs:767-808 | a poll stores and announces only a change of the pending id |
| `HttpAttach.HttpLoop.Serve` | src/http_attach_driver.rs:695-758 | the whole loop is the run the theorems speak about |
| `HttpTheorems.TwoChunksAreOne` | src/http_attach_driver.rs:735-753 | two chunks leave the loop exactly where their concatenation would, interrupts among the events included |
| `HttpTheorems.ChunkingIsInvisible` | src/http_attach_driver.rs:735-753 | however a stream is cut into chunks, same final state and same events, with interrupts landing before the same events; the buffer never holds a break between chunks |
| `HttpTheorems.TranslationFollowsHistory` | src/http_attach_driver.rs:864-914 | updates are exactly the text parts whose message was last announced as the assistant's; one `Idle` then one stop reason per own idle, `Cancelled` iff an interrupt was tried since the previous one |
| `HttpTheorems.OtherSessionsAreInvisible` | src/http_attach_driver.rs:744-746 | deleting other sessions' events changes nothing |
| `HttpTheorems.IdleThenStop` | src/http_attach_driver.rs:902-911 | what a history calls for holds one stop reason per own idle, each right after an `Idle` |
| `HttpTheorems.LoopPairsIdleWithStop` | src/http_attach_driver.rs:902-911 | so does everything the whole loop emits, whatever runs in between |
| `HttpTheorems.LoopFollowsHistory` | src/http_attach_driver.rs:695-758 | with prompts and polls between chunks and interrupts anywhere, the events emitted, statuses and all, are exactly those the history calls for |
| `HttpStream.FramingReadsTheStream` | src/http_attach_driver.rs:736-743 | cutting at breaks and then at line feeds yields exactly the events that reading the stream one character at a time does, for every text |
| `HttpStream.LoopFollowsItsStimuli` | src/http_attach_driver.rs:695-758 | over any run: the loop has returned iff its handle was dropped, a prompt could not be posted or the stream ended; the events emitted, the pending block, the interrupt flag and the text held back are those the stimuli call for |
| `HttpStream.FrameIsRead` | src/http_attach_driver.rs:738-743 | a frame of lines after complete frames adds exactly the events of its lines that start with `data: ` and decode, a carriage return before a line feed left out |
| `HttpStream.PayloadsAreEmitted` | src/http_attach_driver.rs:735-753 | payloads sent as one `data: ` frame each, cut into chunks anyhow, are translated in order, each that decodes, and nothing else is emitted |
| `HttpTheorems.PollsEmitTransitions` | src/http_attach_driver.rs:775-807 | in any run of the loop, polls emit exactly one status per change of pending id, the stored id is the latest found, and polled `Working`s never follow each other |
| `HttpTheorems.PendingIdIsLatest` | src/http_attach_driver.rs:779-790 | the stored id is the latest poll's, whatever else runs |
| `HttpTheorems.BlockedIffPendingUnspoken` | src/http_attach_driver.rs:889-911 | the session reads as blocked iff something is pending and no prompt, busy or idle came since it was found |
| `HttpTheorems.WorkingWhilePending` | src/http_attach_driver.rs:731 | a concrete run that announces `Working` with a question pending |
| `Answers.FirstMatchMeaning` | src/http_attach_driver.rs:625-628 | the first label equal but for ASCII case, or none if there is none |
| `Answers.LabelResolvesIff` | src/http_attach_driver.rs:619-629 | a label picks the first option equal to it iff the in-range index it reads as names such an option, or it reads as none and has no space around it to lose |
| `Answers.TypedChoice` | src/http_attach_driver.rs:619-629 | whatever is typed, white space around it or not: a numeral in range picks that index, and anything else the first option it equals but for the case of ASCII letters, spelt as the option spells it, or nothing |
| `Answers.SplitJoin` | src/http_attach_driver.rs:639 | splitting undoes joining segments free of the separator |
| `Answers.JoinSplit` | src/http_attach_driver.rs:639 | joining undoes splitting, and no segment holds the separator |
| `Answers.AllOrNothing` | src/http_attach_driver.rs:638-648 | an answer resolves iff the count matches and every segment resolves, and then gives one member label per question |
| `Answers.IndicesRoundTrip` | src/http_attach_driver.rs:615-629 | in-range indices in decimal, joined by commas, resolve to exactly those labels |
| `Answers.LabelsRoundTripIff` | src/http_attach_driver.rs:631-648 | one label per question, joined by commas, resolves to the labels' first matches iff none holds a comma and each would pick itself |
| `Answers.NoQuestionsNoAnswer` | src/http_attach_driver.rs:640-642 | with no question nothing resolves, not even an empty answer |
| `ServerAddresses.ParseIffSpells` | src/server_address.rs:100-146 | exactly the listed spellings parse, each to the address it spells |
| `ServerAddresses.ParseFailsIff` | src/server_address.rs:100-146 | each of the seven errors is given for exactly the inputs with that fault |
| `ServerAddresses.CanonicalRoundTripsIff` | src/server_address.rs:150-156 | a parsed address prints to a string that parses back to it iff its host holds a colon or does not open a bracket |
| `ServerAddresses.DoubleBracketFails` | src/server_address.rs:150-156 | the failing family, for every such host and port |
| `ServerAddresses.DoubleBracketIsUnterminated` | src/server_address.rs:114-117 | what such an address prints to is refused as an unterminated bracket |
| `ServerAddresses.CanonicalIsIdempotentIff` | src/server_address.rs:148-156 | canonicalising twice is canonicalising once for exactly the addresses that round-trip; the others cannot be canonicalised twice |
| `Text.ParseDecimal` | src/server_address.rs:159-162 | a number in decimal reads back as itself, within the width |
| `Proto.WireNamesRoundTrip` | src/proto.rs:115-157 | every type's wire name is recognised as that type |
| `Text.ParseUintIff` | src/server_address.rs:159-162 | what reads as a number: exactly the decimal numerals that fit, with leading zeros and one `+` allowed |
| `Proto.WireNames` | src/proto.rs:113-157 | the sixteen names on the wire and their types; every other name is an unknown type |
| `Proto.RoleSpellings` | src/proto.rs:57-63 | a role is spelt as its name or as an object with that one key to `null`, and no other way |
| `Proto.BodyKeys` | src/proto.rs:174-337 | each body is sent with exactly its required keys and those of its optional ones that hold something |
| `Proto.HelloKeys` | src/proto.rs:206-226 | a `hello` is sent with its five required keys and never with any but its twelve |
| `Proto.OtherKeysIgnored` | src/proto.rs:174-337 | a key of no field changes nothing about how a body reads |
| `Proto.MissingOrNullRefused` | src/proto.rs:174-337 | a body without a required key, or with `null` under it, a list or a flag, is refused |
| `Proto.NullIsAbsent` | src/proto.rs:174-337 | `null` under an optional key reads as the key left out |
| `Proto.OptionalMayBeLeftOut` | src/proto.rs:174-337 | a readable body stays readable without any key but the required |
| `Proto.MissingIsDefault` | src/proto.rs:174-337 | what is left out reads as absent, empty or `false` |
| `Proto.BodyIsThere` | src/proto.rs:174-337 | every field is read exactly as given, numbers included, or the body is refused |
| `Proto.EnvelopeNeedsAll` | src/proto.rs:429-468 | only an object with all six keys decodes, and each part is read from its own key |
| `Proto.HelloElidesIff` | src/proto.rs:206-226 | the optional fields of a `hello` are absent iff they hold nothing |
| `Proto.ReplyElidesIff` | src/proto.rs:276-286 | `text`, `chunks` and `exit` of a `reply` are absent iff they hold nothing; `session` and `done` never are |
| `Proto.HelloRoundTrips` | src/proto.rs:206-226 | a `hello` body reads back as written, over all elided fields |
| `Proto.BodyRoundTripsIff` | src/proto.rs:174-337 | every body reads back iff it is not a prompt with an explicit null `meta` |
| `Proto.EnvelopeRoundTripsIff` | src/proto.rs:395-540 | `decode(encode(e)) == e` for every version-1 envelope whose body matches its type, with that one exception |
| `Proto.DecodedIsWellTyped` | src/proto.rs:429-540 | whatever decodes has version 1 and a body of the type it names; an unknown type keeps its body whole |
| `Proto.ArrayBodiesReadByPosition` | src/proto.rs:174-337 | a typed body sent as an array reads as the object giving each item, in declared order, to its own field |
| `Proto.DeclaredOrder` | src/proto.rs:190-337 | which field each item of an array body goes to, for the types with one or three fields |
| `Proto.DeclaredPairs` | src/proto.rs:174-337 | the same for the types with two fields |
| `Proto.DeclaredLong` | src/proto.rs:206-286 | the same for a `reply`, and the order of a `hello` |
| `Proto.SessionSpellings` | src/proto.rs:199-202 | a `hello`'s session is an object with a name and a harness or the pair of them |
| `Proto.VersionCheckIsModulo` | src/proto.rs:443-449 | a frame is refused for its version iff it is an object with a type and an unsigned 64-bit `v` that modulo 2^32 is not 1, and the refusal names that remainder |
| `Proto.OtherVersionsPass` | src/proto.rs:443-449 | a frame that decodes still decodes, to the same envelope, with any 64-bit `v` that narrows to 1 |
| `Proto.FourBillionAndOnePasses` | src/proto.rs:443-449 | every version-1 envelope that round-trips also decodes from its frame with `v` 2^32 + 1 |

## Left out

- Sockets, HTTP requests, subprocesses and the async runtime: a send, a request or a channel is a success flag or a FIFO sequence, and a script may hold any of them in any order. The attach loop's first connection attempt, before the loop, is not modelled.
- Fairness: `recv_any_event` walks a hash map and gives none, so nothing here says that an event is eventually read.
- Timer punctuality: a flush, a tick or a stall expiry may come at any time at or after it is due, and flushes at any time at all; tokio's wake-up delay is not bounded.
- Reconnect.SleepOrDetach: takes each slice to last exactly as long as asked, so the bounds on waits are on the time asked for.
- UTF-8: chunks are whole characters, because the code decodes each chunk on its own; a character cut in two by a chunk boundary is replaced by the client's decoder.
- JSON, TOML and RFC 3339 text: the codec works on JSON trees, event payloads are decoded by an arbitrary function, and timestamps are milliseconds.
- Reconnect.ReconnectIsBounded: the state file and the marker are always written and removed when asked; the code ignores a failed write or removal, after which a file could remain.
- WireAnswers.HeartbeatsKeepTheStampFresh: the stamp is what the loop asked to be written; a failed write is ignored by the code and not modelled.
- Encoding a frame always succeeds; the code's branches for an envelope that cannot be serialised, which no reply body can reach, are not modelled.
- The content of `query_ok`, `pong` and error messages beyond request id and error code (which queries are refused, and with what code, is the query dispatcher's choice), and the ids of frames that are not replies, are not tracked; minted ids are assumed distinct.
- TurnPipeline.TurnsAreConserved: covers the spawn-mode driver. In attach mode nothing ties a posted prompt to one `session.idle`, so no such balance holds of the code.
- DeliveryPipeline.BlockedSurvivesReconnect: the manager task outlives its connections; its shutdown, which comes only after `run` has returned, is not part of the composition.
- A stop reason is taken to be the response to a prompt, so the agent sends one for each prompt it was sent and no others.
- The manager's command channel is merged with the arrival of a command, as the session takes commands in the order they were sent.
- The attempt counter's 32-bit width: reaching it takes over a thousand years of waits.
- `answer`'s HTTP calls and `normalize_permission_reply`, `join`, credentials, the instance lock, configuration, status, query answers, logging and the command line: one-shot I/O or table look-ups that would only add easy members.
