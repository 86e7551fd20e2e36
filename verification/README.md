# Verified model of the agent runtime

This project models, in Dafny, the stateful protocols of the agent repository and proves
what they promise over every input, every run and every interleaving. Each module follows
one component. Code that updates fields or loops is modelled by classes and loops that are
proved against specification functions; code that several threads run is modelled by the
steps between which another thread may run.

| files | component |
|---|---|
| `KernelBookkeeping`, `InterruptProtocol`, `InterruptEveryRun`, `InterruptWindow` | the interrupt protocol of the kernel REPL: reader thread, main thread and signal handler, and where it differs from its documentation |
| `Scanning`, `OutputPump` | the drain-token scanner of the output pump |
| `Snapshot` | the capped, two-file snapshot of the namespace |
| `AgentEvents`, `AgentHost`, `MessageQueue`, `AgentState`, `ToolBatches`, `RunRecords`, `AgentLoop`, `AgentRuns` | the agent loop, what it hears from its host, its queues, its tool batches and the event reducer |
| `BoundedOutput`, `ShellCompletion`, `ShellFinish` | shell output, the completion marker, and the race to finish |
| `JobHandles` | Windows process handles with a deferred close |
| `TaskStore` | the write protocol of the shared task store |
| `Viewport` | scrolling and row-diff painting of the fullscreen viewport |
| `StderrTail`, `HarnessStore` | a bounded stderr tail, and copies of a store over one file |

`Wrappers` and `Sequences` hold what several of them share. Check it with `dafny verify dfyconfig.toml`.

## What the proofs say

**Interrupts.** Every accepted request gets a serial number, so an id used twice names two requests.
A SIGINT may arrive before any step of the main thread, whether or not a message sent one; this
covers every delay between an interrupt message and its signal. In every run, whatever ids the host
gives out and when, a signal hits only the current request, and only if some message addressed that
very request and it is not finished (`SignalsHitOnlyTheAddressed`); nothing happens to a request
after it finished but its `done` (`NothingComesLate`); and every request that was left behind got
exactly one `done` (`EveryRequestIsDone`). A message sends a signal exactly if the request it is
about is the current one and still holds a slot, and never when it is parked or dropped
(`SignalIsSentExactly`); however late that signal arrives, while the request still holds a slot it is
not dropped (`SignalStaysGood`), and one that is only recorded hits its cell before the cell is past
the hand-off (`RecordedIsDelivered`). The one thing that can go wrong is the cancellation by a
parked interrupt at the activation of a request: that it hits only an addressed request holds in
every run in which no late backstop takes an id that is in flight again (`HitsOnlyTheAddressed`).
Four promises turned out to hold only under a condition:

- The bookkeeping invariant survives a step exactly when that step is not the backstop of an already
  finished request taking an id that is in flight again (`StepKeepsInvExactly`). It can happen: an
  interrupt breaks the output drain, the `finally` clause finishes the request, and the host reuses
  the id before `done` (`ImpatientHostIsExposed`). From that step on, through any steps of any
  thread while the new request waits, a message with its id has no effect
  (`ForgottenFromTheHarmfulStep`) unless the id is given out once more (`CountsAgainOnceAccepted`);
  from its activation on it is targetable again (`TargetableOnceActive`). Meanwhile an interrupt can
  cancel a request that no message addressed (`ReusedIdMisdirectsAnInterrupt`). A host that waits
  for `done` before reusing an id is safe (`PoliteHostsAreSafe`).
- `repl.md` (lines 94-96) says that a request stays targetable until its `done` event is emitted.
  The code closes the window earlier, when it finishes the request and before it sends anything. In
  runs that take no reused id, a message does what the documentation says if and only if it does not
  come in between (`PromiseHoldsExactly`). A late message without an id cancels the next request
  instead, in a run of a polite host (`LateInterruptCancelsTheNextCell`).
- Each dequeued request gets its `done` unless the serve loop dies, which then owes it, and all that
  are queued, for good (`DeadLoopOwesDone`). It dies exactly when a targeted SIGINT arrives inside
  the backstop, or when the backstop's own reply fails (`ServeLoopDiesExactly`); two interrupt
  messages in a row suffice (`TwoInterruptsKillTheLoop`).
- `repl.py` (lines 859-866) promises that an interrupt cannot make a completed snapshot or restore
  be answered as failed by the backstop. A request reaches the backstop exactly if it never ran, if
  sending its reply fails, or if a second targeted SIGINT arrives while the clause for the first one
  has not yet cleared the finishing slot (`StateRequestEscapesExactly`); two interrupts from a
  polite host suffice (`TwoInterruptsDisownASnapshot`).

**Output pump.** While a drain waits, what is emitted and held back is the stream without the
drain's token, for every division into reads, and everything before the token is emitted when the
drain is released. `repl.md` (lines 71-76) promises without exception that a cell's bytes precede
its `done`. That fails for a drain that is given up, as by an interrupt: its `finally` clause stops
the watch while the token may still be in the pipe. The pump then ships the token to the host
(`GivenUpDrainShipsItsToken`), and nothing waits for bytes of the cell that were still in the pipe,
so they can follow its `done`. The token is cut out exactly if its last byte was read before the
drain was given up (`TokenIsCutExactly`); the bytes before it are out by then exactly if they do not
reach into the tail that is held back (`GiveUpDrain`). Over any schedule of drains that come and go
every byte is kept, in order, if and only if no token is read while it is watched for
(`ScheduleLosesOnlyTokens`, `RunSchedule`).

**Agent loop.** For every run that returns, whatever streams, tools, hooks, queue changes and aborts
do in between, the Agent's transcript is the old one, the prompts, and turn by turn the injected
messages, the reply and its tool results. The loop's private context agrees with it, and the events
are well formed, exactly when no stream emits `start` twice (`SecondStartLeavesAStalePartial` is one
that does); that turns open and close in pairs holds even then. In runs that were not aborted every
polled batch is delivered whole, in the one turn it was polled for, and between two turns at most
one poll returned anything, whether the run returns or throws. And in such a run the host is heard:
every reply is what the stream said for the messages so far, every outcome is what the tool and its
hooks answered (`EveryTurnWasHeard`), every turn has a cause (`EveryTurnWasDue`), and every poll
came in its place after hooks that did not ask to stop (`EveryPollWasAllowed`). So a run in which no
hook asks to stop after the last turn, and whose last reply did not fail, returns only when that
turn wants no more and steering, follow-ups and continuations were polled in this order and had
nothing; it throws only when a stream failed (`RunPromptMessages`).

**Snapshot.** A value is saved if it pickles within its own cap and everything up to it fits the
total cap; whatever is saved respects both, and the caps are the request's own, 256 MiB in all and
16 MiB for a value unless it gives others (`HandleSnapshot`).

**Task store.** The disk is the fold of the merges in commit order. The delta of a write is what
differs from what its host had cached when it prepared (`WritesWerePrepared`), so a field an
operation leaves as its cache had it survives its commits as the other hosts have written it
(`UntouchedFieldsStay`).

**Harness store.** `update` raises the version by one exactly when the id is not empty: the
existence check uses the id as given, while the write replaces an empty id by the title's slug,
which is never empty. `UpdateUnderEmptyId` is such an update. Copies of different scope are one
store as soon as every stored entry carries its scope, which is so once anything was saved
(`ViewsMergeExactly`).

## Model

| member | source | states |
|---|---|---|
| KernelBookkeeping.Bookkeeping.Handler | andy-agent-runtime/src/rlm/repl.py:307-336 | which signals hit the active task, are recorded for the finishing phase, are raised in it, or are dropped; the two flags follow, and nothing else changes |
| KernelBookkeeping.Bookkeeping.Request | andy-agent-runtime/src/rlm/repl.py:339-373 | an interrupt message sends a signal exactly if it is about the active or the finishing request, which becomes the target; otherwise it is parked if something it could be about is in flight, and nothing else changes |
| KernelBookkeeping.Bookkeeping.Consume | andy-agent-runtime/src/rlm/repl.py:389-394 | a parked interrupt is reported once and cleared, for this request or for any |
| KernelBookkeeping.Bookkeeping.ConsumeHandoff | andy-agent-runtime/src/rlm/repl.py:397-403 | an interrupt of the hand-off window is reported once and cleared |
| KernelBookkeeping.Bookkeeping.Accept | andy-agent-runtime/src/rlm/repl.py:1003-1012 | an id is registered unless it is already in flight |
| KernelBookkeeping.Bookkeeping.Finish | andy-agent-runtime/src/rlm/repl.py:406-426 | finishing drops exactly the request's slot, target, id and parked interrupts, and the untargeted one when nothing is in flight any more |
| InterruptProtocol.RequestFindsAddressee | andy-agent-runtime/src/rlm/repl.py:339-370 | among the requests that are not finished the branches of the code select the first one, or the one with the given id, and target or park for it; otherwise nothing changes |
| InterruptWindow.PromiseHoldsExactly | andy-agent-runtime/src/rlm/repl.md:87-97 | wherever the bookkeeping invariant holds, a message is resolved to the request the documentation names, open until its done event, if and only if it does not come between finishing that request and its done event |
| InterruptWindow.OpenUntilDoneExactly | andy-agent-runtime/src/rlm/repl.md:94-96 | in every run the requests the documentation keeps open are exactly the accepted ones without a done event |
| InterruptWindow.DocumentedRuleExactly | andy-agent-runtime/src/rlm/repl.py:560-569 | the code's rule and the documented one name the same request if and only if the message does not come late |
| InterruptWindow.LateInterruptGoesToTheNext | andy-agent-runtime/src/rlm/repl.py:560-569 | a late message without an id is parked for the next queued request, which it will cancel |
| InterruptWindow.LateInterruptById | andy-agent-runtime/src/rlm/repl.py:361-369 | a late message with the id is dropped, or parked for a later request that reuses the id |
| InterruptWindow.LateInterruptCancelsTheNextCell | andy-agent-runtime/src/rlm/repl.py:560-569 | a run of a polite host in which the documented addressee is the first cell, not yet done, and the second one is cancelled |
| InterruptProtocol.ActivationHitsTheAddressed | andy-agent-runtime/src/rlm/repl.py:504-513 | a request is cancelled at its activation if and only if a message addressed it while it waited |
| InterruptProtocol.StepKeepsInv | andy-agent-runtime/src/rlm/repl.py:307-426 | every step of reader, main thread and handler, except taking a reused id, keeps slots, queue order, parked interrupts, targets and history consistent |
| InterruptProtocol.StepKeepsInvExactly | andy-agent-runtime/src/rlm/repl.py:910-928 | the invariant survives a step if and only if the step is not a late backstop taking an id in flight again |
| InterruptProtocol.RunKeepsInv | andy-agent-runtime/src/rlm/repl.py:307-426 | the invariant over whole runs of any length |
| InterruptEveryRun.SignalsHitOnlyTheAddressed | andy-agent-runtime/src/rlm/repl.py:307-336 | in every run, even with reused ids: a SIGINT, and every step but an activation, hits only the current request, which a message addressed and which is neither finished nor done |
| InterruptEveryRun.EventsAreAllowedExactly | andy-agent-runtime/src/rlm/repl.py:307-426 | in every run each event is the one the protocol allows next, if and only if the step is not an activation that cancels an unaddressed request |
| InterruptEveryRun.CancelsUnaddressedOnlyAfterReuse | andy-agent-runtime/src/rlm/repl.py:910-928 | that exception needs a late backstop that took a reused id before |
| InterruptEveryRun.NothingComesLate | andy-agent-runtime/src/rlm/repl.py:307-426 | in every run, whatever is addressed, hit, finished or done was accepted before, and nothing is addressed, hit or finished once it is finished |
| InterruptEveryRun.EveryRequestIsDone | andy-agent-runtime/src/rlm/repl.py:504-571 | in every run each request the main thread no longer owes a done event got exactly one, and any other one none |
| InterruptEveryRun.GlobalsStayRelated | andy-agent-runtime/src/rlm/repl.py:339-426 | in every run parked ids are in flight and an untargeted parked interrupt implies something is; outside the critical sections the target is one of the two slots and a recorded hand-off has a target |
| InterruptEveryRun.SignalIsSentExactly | andy-agent-runtime/src/rlm/repl.py:339-373 | outside the critical sections a message sends a signal if and only if the request it is about, the first unfinished one or the one with its id, is the current one and still holds a slot; then that request is the target and the signal is not dropped, else targets stay |
| InterruptEveryRun.RequestAndSignal | andy-agent-runtime/src/rlm/repl.py:307-373 | the same on the bookkeeping object, in every state some run reaches: the message is served and the signal it asks for is handled, hitting a task that is alive and recorded for one that is over |
| InterruptEveryRun.SignalStaysGood | andy-agent-runtime/src/rlm/repl.py:307-336 | after any steps of any thread, a signal that was asked for is not dropped as long as its request holds a slot |
| InterruptEveryRun.RecordedIsDelivered | andy-agent-runtime/src/rlm/repl.py:397-403 | a recorded interrupt of a cell hits that cell, or still waits for the hand-off to report it |
| InterruptEveryRun.FlagTellsOfHits | andy-agent-runtime/src/rlm/repl.py:307-336 | in every run the interrupted flag of the active request is set exactly if it has been hit |
| InterruptProtocol.HitsOnlyTheAddressed | andy-agent-runtime/src/rlm/repl.py:307-426 | in every run that takes no reused id, every hit, those of parked interrupts at an activation included, comes after a message addressed that incarnation and before it finished |
| InterruptProtocol.GlobalsStayConsistent | andy-agent-runtime/src/rlm/repl.py:389-426 | in runs that take no reused id, outside the critical sections: active, finishing and parked ids are in flight, the target is unset or one of the two slots, and an untargeted parked interrupt implies something is in flight |
| InterruptProtocol.ReusedIdIsForgotten | andy-agent-runtime/src/rlm/repl.py:910-928 | when the late backstop is done, the new request with that id is queued but not in flight, and a message with its id changes nothing |
| InterruptWindow.BackstopForgets | andy-agent-runtime/src/rlm/repl.py:910-928 | the late backstop leaves the request that reuses its id forgotten |
| InterruptWindow.ForgottenWhileItWaits | andy-agent-runtime/src/rlm/repl.py:339-370 | through any steps of any thread, while a forgotten request waits no message with its id has an effect, unless the id is given out once more |
| InterruptWindow.ForgottenFromTheHarmfulStep | andy-agent-runtime/src/rlm/repl.py:910-928 | from the harmful step on, through any steps of any thread while the request that reuses the id waits, the backstop still holds the lock or a message with the id has no effect, unless the id is given out once more |
| InterruptWindow.CountsAgainOnceAccepted | andy-agent-runtime/src/rlm/repl.py:361-369 | once the id of a forgotten request is given out again, a message with it is parked for the first waiting request of that id |
| InterruptWindow.TargetableOnceActive | andy-agent-runtime/src/rlm/repl.py:339-370 | whatever happened before, a running request is targeted by its id and hit by the signal; a commit that has parked SIGINT itself is left out |
| InterruptEveryRun.RunKeepsOwnSlots | andy-agent-runtime/src/rlm/repl.py:504-532 | in every run, even with reused ids, the active and finishing slots name nothing but the current request |
| InterruptProtocol.ImpatientHostIsExposed | andy-agent-runtime/src/rlm/repl.py:910-928 | a run of a host that reuses an id before done reaches the harmful step |
| InterruptProtocol.ReusedIdMisdirectsAnInterrupt | andy-agent-runtime/src/rlm/repl.py:910-928 | a run in which, after such a step, a request is cancelled that no message addressed |
| InterruptProtocol.PoliteHostsAreSafe | andy-agent-runtime/src/rlm/repl.py:1003-1012 | for hosts that wait for done before reusing an id no run takes a reused id, so everything above holds |
| InterruptEveryRun.ServeLoopDiesExactly | andy-agent-runtime/src/rlm/repl.py:910-928 | the serve loop dies exactly on a targeted SIGINT inside the backstop or a failing backstop reply |
| InterruptEveryRun.DeadLoopOwesDone | andy-agent-runtime/src/rlm/repl.py:1154-1162 | in every run, whatever comes after, a dead loop stays dead, its main thread takes no step, and its request and all that wait never get a done event |
| InterruptProtocol.TwoInterruptsKillTheLoop | andy-agent-runtime/src/rlm/repl.py:910-928 | two interrupt messages with their signals reach the dead loop even for a host that waits |
| InterruptWindow.RunKeepsOwnClause | andy-agent-runtime/src/rlm/repl.py:822-907 | in every run a request is finished by a clause of its own handler or by the backstop |
| InterruptWindow.StateRequestEscapesExactly | andy-agent-runtime/src/rlm/repl.py:854-866 | a snapshot or restore reaches the backstop if and only if it fails to start, its reply cannot be sent, or a second targeted SIGINT arrives while the clause for the first one has not cleared the finishing slot |
| InterruptWindow.TwoInterruptsDisownASnapshot | andy-agent-runtime/src/rlm/repl.py:859-866 | a run of a polite host in which two interrupts after the task's completion hand a committed snapshot to the backstop |
| Scanning.FindExactly | andy-agent-runtime/src/rlm/repl.py:182-208 | the search answers exactly the first occurrence, or none |
| Scanning.HoldBack | andy-agent-runtime/src/rlm/repl.py:195-204 | the loop finds the longest tail that could be the start of a token |
| Scanning.HoldExactly | andy-agent-runtime/src/rlm/bash.py:340-349 | the same for the specification function, as an if-and-only-if |
| OutputPump.ScanLosesOnlyTokens | andy-agent-runtime/src/rlm/repl.py:182-208 | emitted bytes plus held-back tail are the bytes read without the tokens |
| OutputPump.ScanCutsAtTokens | andy-agent-runtime/src/rlm/repl.py:182-208 | the pieces that are left, joined with the token, are the stream, none of them holds a token, and the held-back tail is the longest start of a token that ends the last one |
| OutputPump.ScanInPieces | andy-agent-runtime/src/rlm/repl.py:182-208 | reading a stream in two pieces emits, holds and fences the same as reading it at once |
| OutputPump.ChunkingIsInvisible | andy-agent-runtime/src/rlm/repl.py:182-208 | the same for every division into chunks |
| OutputPump.DrainShipsEverything | andy-agent-runtime/src/rlm/repl.py:154-208 | when the drain is released, exactly the bytes before the token have been emitted |
| OutputPump.Pump.Feed | andy-agent-runtime/src/rlm/repl.py:182-208 | one read on the mutable pump has the effect of the scan of tail plus chunk |
| OutputPump.Pump.PassToken | andy-agent-runtime/src/rlm/repl.py:188-196 | everything before the token is emitted before the drain is released |
| OutputPump.FeedAll | andy-agent-runtime/src/rlm/repl.py:154-208 | reading on while a drain waits, in any pieces: what is emitted and held back are the pieces of the stream between its tokens, cut at each first one; only the longest start of a token at the end is held back; the drain is released exactly if the token occurs, with the first piece emitted |
| OutputPump.RunSchedule | andy-agent-runtime/src/rlm/repl.py:154-208 | for any schedule of drains that start, wait and are given up, with any tokens and reads, what is emitted and held back is what the stretches make of the stream |
| OutputPump.ScheduleLosesOnlyTokens | andy-agent-runtime/src/rlm/repl.py:154-208 | over any such schedule every byte is kept in order if and only if no token is read to its end while it is watched for; otherwise bytes are missing |
| OutputPump.TokenIsCutExactly | andy-agent-runtime/src/rlm/repl.py:154-172 | the token of a drain that is given up is cut out if and only if its last byte was read before that |
| OutputPump.FeedThenGiveUp | andy-agent-runtime/src/rlm/repl.py:154-208 | what was read while the drain waited is stripped of its token, what is read later is not |
| OutputPump.OutBeforeTokenExactly | andy-agent-runtime/src/rlm/repl.py:154-208 | after some bytes of the stream, everything before the token is out if and only if it lies in these bytes without the held-back tail |
| OutputPump.GiveUpDrain | andy-agent-runtime/src/rlm/repl.py:154-208 | the same on the pump, for a drain that is given up after any reads |
| OutputPump.GivenUpDrainShipsItsToken | andy-agent-runtime/src/rlm/repl.py:170-187 | a drain given up before its token is read: the host gets the token |
| Snapshot.DumpTo | andy-agent-runtime/src/rlm/repl.py:592-604 | the chunk-wise capped writer accepts a dump exactly when its total fits, and then the sink holds all of it |
| Snapshot.CappedWriter.Write | andy-agent-runtime/src/rlm/repl.py:598-604 | a chunk is written whole or, past the cap, not at all |
| Snapshot.JudgeExactly | andy-agent-runtime/src/rlm/repl.py:637-657 | a value is kept exactly when it pickles and respects its own and the remaining cap; when pruning, it is oversized exactly when it breaks its own |
| Snapshot.CollectNames | andy-agent-runtime/src/rlm/repl.py:629-657 | the loop over the names computes the specified collection |
| Snapshot.CollectPartitions | andy-agent-runtime/src/rlm/repl.py:629-657 | every candidate name is kept or skipped and never both |
| Snapshot.CollectNeverTwice | andy-agent-runtime/src/rlm/repl.py:629-657 | no candidate is kept or skipped twice |
| Snapshot.CollectDecidesInTurn | andy-agent-runtime/src/rlm/repl.py:629-657 | what happens to a name depends only on the bytes kept before it and is never revised |
| Snapshot.CollectRespectsCaps | andy-agent-runtime/src/rlm/repl.py:637-657 | kept values respect the variable cap each and the total cap together |
| Snapshot.Search | andy-agent-runtime/src/rlm/repl.py:708-717 | the binary search finds the longest prefix that fits, as found by trying lengths one by one |
| Snapshot.LongestFitExactly | andy-agent-runtime/src/rlm/repl.py:706-717 | with a monotone dump size, a prefix that fits while the next does not is the longest that fits |
| Snapshot.StagePayload | andy-agent-runtime/src/rlm/repl.py:690-724 | the temporary file ends up with exactly the dump of that prefix, whatever the search left in it; it fails exactly if even the empty dictionary does not fit |
| Snapshot.ManifestPartitions | andy-agent-runtime/src/rlm/repl.py:718-735 | saved and skipped names partition the candidates |
| Snapshot.PrunedIsNeverSaved | andy-agent-runtime/src/rlm/repl.py:725-726 | a pruned name was asked to be pruned, was skipped for its own size, is still bound, and is not saved |
| Snapshot.KeptIsLongestThatFits | andy-agent-runtime/src/rlm/repl.py:706-721 | the saved items are the longest prefix of the collected ones whose dump fits |
| Snapshot.VerdictTells | andy-agent-runtime/src/rlm/repl.py:637-657 | a value is kept if and only if it pickles within its own and the remaining cap; and exactly when which reason is given for skipping it |
| Snapshot.SavedWithRoom | andy-agent-runtime/src/rlm/repl.py:629-721 | a value that pickles within its cap, when everything up to it fits the total cap, by itself and pickled together, is saved, with everything up to it |
| Snapshot.SavedWithinCaps | andy-agent-runtime/src/rlm/repl.py:629-721 | what is saved is listed with that very pickle, each within its own cap, and all of it and the payload within the total cap |
| Snapshot.PrunesExactly | andy-agent-runtime/src/rlm/repl.py:725-726 | when asked to prune, the bound names that go are exactly those whose own pickle is over its cap |
| Snapshot.Commit | andy-agent-runtime/src/rlm/repl.py:743-766 | payload first, manifest second, pruning last and only after both |
| Snapshot.Take | andy-agent-runtime/src/rlm/repl.py:607-779 | a snapshot succeeds exactly if nothing goes wrong and the empty dictionary fits; until the first replace both old files and the namespace are intact, and no temporary file is left |
| Snapshot.HandleSnapshot | andy-agent-runtime/src/rlm/repl.py:827-854 | a request succeeds exactly if its flag and caps are well formed, its paths differ, nothing goes wrong and the empty dictionary fits its total cap; then payload and saved values respect the total cap and each value its own, 256 MiB and 16 MiB unless given, a value that fits with everything up to it is saved, and exactly the names whose own pickle is over are pruned, if asked; a refused one touches nothing |
| AgentEvents.TranscriptIsWhatEnded | packages/agent/src/agent.ts:556-604 | the reduced transcript is the old one plus the messages of all message_end events |
| AgentEvents.PendingIsWhatRuns | packages/agent/src/agent.ts:571-583 | a call id is pending exactly if nothing ended it since it last started |
| AgentEvents.WellFormedRunsAreBalanced | packages/agent/src/agent-loop.ts:304-449 | in a well-formed run every message closes after nothing but its updates, and the turns are paired |
| AgentEvents.TurnPhaseExactly | packages/agent/src/agent-loop.ts:304-449 | the turn automaton breaks exactly if some turn does not end before the next one or the run's end, or ends without having started, and it knows whether one is open |
| AgentEvents.TurnsPairedExactly | packages/agent/src/agent-loop.ts:304-449 | it ends between two turns if and only if every turn_start is closed by one turn_end before the next turn and the end of the run, and no turn_end lacks its turn_start |
| AgentEvents.ClosedExactly | packages/agent/src/agent.ts:549-555 | a closed run is one with exactly one agent_end, at the end |
| MessageQueue.PendingMessageQueue.Enqueue | packages/agent/src/agent.ts:124-129 | a non-empty batch goes to the back, whole |
| MessageQueue.PendingMessageQueue.Drain | packages/agent/src/agent.ts:135-148 | in one mode everything is taken, in the other the first batch, and the rest stays in order |
| MessageQueue.PendingMessageQueue.RemoveWhere | packages/agent/src/agent.ts:154-166 | withdraws exactly the batches with a matching message and keeps the others in order |
| MessageQueue.PendingMessageQueue.HasItems | packages/agent/src/agent.ts:131-133 | there is something to drain exactly if a batch waits |
| MessageQueue.QueueIsFifo | packages/agent/src/agent.ts:119-167 | over any history of enqueues, drains, withdrawals and clears, what was drained followed by what waits keeps the order of enqueueing, batch by batch |
| MessageQueue.QueueKeepsBatches | packages/agent/src/agent.ts:119-167 | over any such history every batch was drained, was withdrawn, or waits, and only one of them, once |
| MessageQueue.Play | packages/agent/src/agent.ts:119-167 | any such history, played on a queue object, leaves what the specification says |
| MessageQueue.WithdrawingSplits | packages/agent/src/agent.ts:154-166 | withdrawing puts every batch on exactly one side |
| MessageQueue.WithdrawingMatches | packages/agent/src/agent.ts:154-166 | the withdrawn batches are those with a matching message, the others have none |
| MessageQueue.SelectedEmbeds | packages/agent/src/agent.ts:154-166 | the batches that stay keep their order, and so do those that leave |
| AgentState.Agent.ProcessEvents | packages/agent/src/agent.ts:556-604 | what each type of event does to the messages, the partial message, the pending calls and the error, and to nothing else; the run's event log grows by that event |
| ToolBatches.PrepareToolCall | packages/agent/src/agent-loop.ts:772-825 | an unknown tool never runs; every immediate outcome is an error without a terminate hint |
| ToolBatches.OutcomeTells | packages/agent/src/agent-loop.ts:772-930 | who decides about text, error flag and terminate hint of a call's outcome: unknown tools, refusals, the tool, the hook after it field by field, and a hook that throws |
| ToolBatches.FinalizeExecuted | packages/agent/src/agent-loop.ts:883-930 | the hook after a tool replaces the fields it gives, unless an abort replaces the outcome by its error |
| ToolBatches.ExecutePrepared | packages/agent/src/agent-loop.ts:827-882 | a call that may run has the outcome its answer says, or the abort's error once aborted; its updates are emitted while it runs |
| ToolBatches.ResultsCarryTheirCalls | packages/agent/src/agent-loop.ts:948-958 | a result message carries its call's id and name, and its outcome's text and error flag |
| ToolBatches.ExecuteSequentially | packages/agent/src/agent-loop.ts:607-665 | each call starts only when the one before it has its result; one outcome per call in source order, as answered, or a prefix if aborted; nothing stays pending |
| ToolBatches.CompleteAll | packages/agent/src/agent-loop.ts:695-716 | deferred calls finishing in any order fill every place with the outcome of its own call and leave no call pending, even with repeated ids |
| ToolBatches.ExecuteInParallel | packages/agent/src/agent-loop.ts:667-726 | exactly one outcome per call, as answered; all tool events come first, in any order, then the results in source order |
| ToolBatches.ExecuteToolCalls | packages/agent/src/agent-loop.ts:585-600 | calls run one by one exactly if the agent is sequential or one of their tools is, else all at once; fewer outcomes than calls only if aborted and one by one; termination exactly if every outcome of a non-empty batch asks for it |
| RunRecords.EveryPollWasAllowed | packages/agent/src/agent-loop.ts:372-446 | steering is polled only when no hook asked to stop after the turn; follow-ups only right after an empty steering poll and a turn that wants no more; continuations only right after an empty follow-up poll, and they are what the host's policy gives; before each no hook asked to stop |
| RunRecords.EveryTurnIsAnswered | packages/agent/src/agent-loop.ts:345-365 | in each recorded turn outcome k belongs to call k, and in complete turns every call has one |
| RunRecords.EveryTurnWasDue | packages/agent/src/agent-loop.ts:322-425 | every turn follows a poll for steering and a reply that did not fail, and one without injected messages follows tool calls that did not all ask to stop, and no hook that did |
| RunRecords.EveryTurnWasHeard | packages/agent/src/agent-loop.ts:340-365 | every reply is the result of a stream that was read to its end for the messages so far, and every outcome is the tool's answer for its call |
| RunRecords.EndsWithNothingLeft | packages/agent/src/agent-loop.ts:427-446 | a run that ends with an empty poll for continuations had a last turn that wants no more, and polled steering, follow-ups and continuations in vain, in this order |
| RunRecords.BatchesArriveWhole | packages/agent/src/agent-loop.ts:325-338 | a turn's injected messages are exactly the batches polled for it, none split or shared between turns |
| RunRecords.OneSourcePerTurn | packages/agent/src/agent-loop.ts:405-446 | between two turns at most one poll returned anything |
| RunRecords.DeliverPoll | packages/agent/src/agent-loop.ts:405-446 | one more allowed poll keeps the delivery record, its batches now pending |
| RunRecords.DeliverTurn | packages/agent/src/agent-loop.ts:325-371 | one more turn that injects what was pending keeps the delivery record, nothing pending |
| AgentLoop.Loop.PollUnlessAborted | packages/agent/src/agent-loop.ts:167-175 | what a queue gave is what the poll recorded; only an abort loses it |
| AgentLoop.Loop.Drain | packages/agent/src/agent-loop.ts:167-175 | a poll of a queue gives what its mode takes from it, unless it is the first one and to be skipped |
| AgentLoop.Loop.StreamReply | packages/agent/src/agent-loop.ts:451-583 | for any stream, exactly the final message is added to the context and announced once, up to one stale message per extra start; unless aborted it is the one the stream gives |
| AgentLoop.CutMessageKeepsItsText | packages/agent/src/agent-loop.ts:132-147 | a reply cut short by an abort keeps the text and calls it had so far, and says that it was aborted |
| AgentLoop.Loop.RunTurn | packages/agent/src/agent-loop.ts:325-371 | one turn keeps both arrays, the turns, the polls and the event log consistent, or says which injected messages the exception interrupted |
| AgentLoop.Loop.AfterTurn | packages/agent/src/agent-loop.ts:372-425 | both hooks are heard, then steering is polled; the run ends there only if it was aborted or a hook said yes after this turn; a non-empty steering answer owns the boundary, and tool calls go on without one |
| AgentLoop.Loop.AtRest | packages/agent/src/agent-loop.ts:427-446 | follow-ups before continuations; otherwise the run ends, because it was asked to, because it was aborted, or because every source was empty |
| AgentLoop.Loop.RunLoop | packages/agent/src/agent-loop.ts:304-449 | whatever the host does, the loop ends with one agent_end carrying the new messages and for one of the four reasons to end, every polled batch delivered whole in one turn unless aborted, or throws or is cut off at the limit with the books in balance; a run that no hook stopped, that was not aborted and whose last reply did not fail ends only with nothing left to do |
| AgentRuns.HandleRunFailure | packages/agent/src/agent.ts:520-539 | a failure adds one failed or aborted message, sets the error, and ends the run with agent_end |
| AgentRuns.RunPromptMessages | packages/agent/src/agent.ts:426-440 | after a run: the transcript is the old one plus prompts plus turns (plus the failure message); the context agrees with it exactly if no stream started twice; agent_end came once and last; every turn_start is closed by one turn_end, however its messages were streamed; unless aborted every drained batch was delivered whole, in the one turn it was polled for, and host and tools were heard; it returns, unless aborted, failed or stopped by a hook, only with nothing left to do, and throws only if aborted or its stream failed; nothing is left pending |
| AgentRuns.SecondStartLeavesAStalePartial | packages/agent/src/agent-loop.ts:451-583 | a stream with two starts: the first partial message stays in the loop's context, the transcript never has it, and the events are not well formed |
| AgentRuns.RunContinuation | packages/agent/src/agent.ts:442-452 | the same without prompts; the loop refuses exactly an empty transcript or one that ends in a reply |
| AgentRuns.PlanContinuation | packages/agent/src/agent.ts:355-399 | queued steering before queued follow-ups before the messages as they are |
| AgentRuns.Continue | packages/agent/src/agent.ts:355-399 | refuses exactly when busy or when there is nothing to continue with, changing nothing; otherwise all or the first of the steering batches, else of the follow-ups, become the prompts of a run that accounts for everything drained after them, skips its first poll exactly after steering, and is never refused by the loop |
| BoundedOutput.BoundedBuffer.Write | andy-agent-runtime/src/rlm/bash.py:70-91 | after any writes the head is the first bytes of everything written, the tail the last bytes of the rest, and the dropped count is exact |
| BoundedOutput.BoundedBuffer.Text | andy-agent-runtime/src/rlm/bash.py:97-105 | the text is a function of everything written, not of how it was chunked |
| BoundedOutput.BoundedBuffer.Size | andy-agent-runtime/src/rlm/bash.py:93-95 | the size is that of everything written, up to the two caps together |
| BoundedOutput.TextAccountsForAll | andy-agent-runtime/src/rlm/bash.py:97-105 | a text is clipped exactly if the output is longer than both caps, and then head, dropped middle and tail make up the whole output |
| BoundedOutput.LastInPieces | andy-agent-runtime/src/rlm/bash.py:80-91 | keeping the last bytes piece by piece keeps the last bytes of the whole |
| ShellCompletion.OpenRead | andy-agent-runtime/src/rlm/bash.py:327-349 | what a read does depends only on the held-back bytes and the new ones, and equals searching the whole stream |
| ShellCompletion.CommandOutput.Consume | andy-agent-runtime/src/rlm/bash.py:327-349 | while the marker has not come, everything but the longest start of one is shipped; once it first occurs, the text in front of it is the completion text, and the stream without that one marker is shipped |
| ShellCompletion.CommandOutput.Abandon | andy-agent-runtime/src/rlm/bash.py:351-357 | giving up ships every held-back byte, in place |
| ShellCompletion.ReadToEnd | andy-agent-runtime/src/rlm/bash.py:327-357 | for every chunking, the completion text is the bounded text before the first marker, and the buffer gets the stream without that one marker |
| ShellFinish.BashHandle.FinalizeLocked | andy-agent-runtime/src/rlm/bash.py:496-509 | the first call sets the result and hands over every callback, a later one changes nothing |
| ShellFinish.BashHandle.AddDoneCallback | andy-agent-runtime/src/rlm/bash.py:511-516 | a callback is registered, or must run at once if the result is set |
| ShellFinish.StepKeepsStatus | andy-agent-runtime/src/rlm/bash.py:363-415 | every step of the two threads keeps the agreement on who may finalize with which code |
| ShellFinish.Balance | andy-agent-runtime/src/rlm/bash.py:496-516 | no step loses or repeats a callback |
| ShellFinish.ResultIsSetOnce | andy-agent-runtime/src/rlm/bash.py:363-415 | in every interleaving the result is set at most once, with the delivered status if one was parsed and the wait code otherwise, and not before the completion text is settled |
| ShellFinish.EveryCallbackRan | andy-agent-runtime/src/rlm/bash.py:496-516 | when both threads are over, the result is set and every callback ran exactly once |
| ShellFinish.SomeThreadGoesOn | andy-agent-runtime/src/rlm/bash.py:363-415 | with the process gone, the status channel read and the completion text settled, the threads wait for nothing if and only if both are over |
| ShellFinish.NoRunGetsStuck | andy-agent-runtime/src/rlm/bash.py:363-415 | from every reachable such state the threads' own steps, each of which lowers the work left, lead to both being over, the result set, and every callback run or handed to its registrar |
| JobHandles.JobProcess.Close | andy-agent-runtime/src/rlm/_winjob.py:189-193 | closing is idempotent; the process handle closes now or with the last waiter |
| JobHandles.JobProcess.WaitEnter | andy-agent-runtime/src/rlm/_winjob.py:228-243 | a waiter registers before it blocks, so the handle stays open under it |
| JobHandles.JobProcess.WaitLeave | andy-agent-runtime/src/rlm/_winjob.py:243-252 | the exit code is cached before the last waiter closes the handle; a cached code never changes |
| JobHandles.JobProcess.KillLocked | andy-agent-runtime/src/rlm/_winjob.py:259-265 | killing uses the handle only while it is open |
| JobHandles.RunSchedule | andy-agent-runtime/src/rlm/_winjob.py:166-265 | for any schedule of any threads no handle is used or closed after its close, none is closed under a blocking wait, and it is closed once close was requested and no waiter remains |
| TaskStore.StepKeepsInv | packages/andy-code/scripts/check-task-store-concurrency.ts:282-409 | every step keeps mutex and lock owners exact, candidates fresh, commits a prefix of the writes, and the disk the replay of the commits |
| TaskStore.DiskIsSerial | packages/andy-code/scripts/check-task-store-concurrency.ts:282-409 | for any hosts, tasks, operations and merge, the disk is the fold of the merges in commit order |
| TaskStore.EntryIsTrue | packages/andy-code/scripts/check-task-store-concurrency.ts:335-372 | every commit recorded the disk record at that moment and wrote the merge of its delta into it |
| TaskStore.ChecksNeverThrow | packages/andy-code/scripts/check-task-store-concurrency.ts:335-345 | the checks that would throw at commit never fail |
| TaskStore.HeldMutexMakesProgress | packages/andy-code/scripts/check-task-store-concurrency.ts:282-409 | while a host mutex is held, the next step of its holder is enabled, or the commit of the operation whose file lock it waits for |
| TaskStore.HeldMutexIsReleased | packages/andy-code/scripts/check-task-store-concurrency.ts:282-409 | from every reachable state with a held mutex, steps of operations alone lead to its release, with the holder done or rejected |
| TaskStore.OwnersAreExact | packages/andy-code/scripts/check-task-store-concurrency.ts:411-452 | the script's own invariants, for unbounded systems |
| TaskStore.FieldStaysOnDisk | packages/andy-code/scripts/check-task-store-concurrency.ts:411-452 | from any reachable state on, if the merge keeps fields a delta does not name, a field stays on disk as it is unless a delta committed in between names it |
| TaskStore.UnionStaysOnDisk | packages/andy-code/scripts/check-task-store-concurrency.ts:411-452 | in every reachable state, if the merge unites a set-valued field, everything any commit added to it is on disk |
| TaskStore.WritesWerePrepared | packages/andy-code/scripts/check-task-store-concurrency.ts:258-274 | in every reachable state the writes of an operation are those it prepared at one step of a run that leads there: built from its snapshot, and each delta is what computeDelta says against the record its host had cached at that step, or the whole record if there was none |
| TaskStore.UntouchedFieldsStay | packages/andy-code/scripts/check-task-store-concurrency.ts:258-274 | no lost update: what an operation leaves as its host had it cached when it prepared, its commits leave as they find it on disk, whatever other hosts wrote |
| TaskStore.SnapshotIsTheCache | packages/andy-code/scripts/check-task-store-concurrency.ts:282-300 | an operation's snapshot stays what its host had cached when it read, and it was enabled on it |
| TaskStore.CommitsShowInTheCache | packages/andy-code/scripts/check-task-store-concurrency.ts:335-388 | a commit shows in its own host's cache at once, or at the end of the operation, finished or failed, and in no other cache |
| TaskStore.PublishShowsTheLast | packages/andy-code/scripts/check-task-store-concurrency.ts:358-376 | publishing at the end shows the last commit of the operation to each task |
| TaskStore.FailsExactly | packages/andy-code/scripts/check-task-store-concurrency.ts:368-386 | an operation may fail exactly at a revalidated write after its first, if it publishes at the end |
| TaskStore.RefreshesExactly | packages/andy-code/scripts/check-task-store-concurrency.ts:388-409 | in every reachable state a host may refresh if and only if its cache is stale and none of its operations is at work, or has read and forbids it |
| ViewportScroll.FullscreenViewport.ComposeFrame | packages/tui/src/fullscreen.ts:99-132 | the dock keeps its last lines but leaves three rows, above it are the transcript's lines from the scroll position on, which is the end while following and otherwise stays unless it is beyond the end |
| ViewportScroll.FullscreenViewport.ScrollBy | packages/tui/src/fullscreen.ts:680-684 | the position moves by so many lines from where the reader is, as far as the page goes, and follows exactly at its end |
| ViewportScroll.FullscreenViewport.ScrollToTop | packages/tui/src/fullscreen.ts:686-689 | the position is the first line, and follows exactly if there is nothing to scroll |
| ViewportScroll.FullscreenViewport.ScrollToBottom | packages/tui/src/fullscreen.ts:691-694 | the position is the end, and follows |
| ViewportScroll.FrameFillsTheScreen | packages/tui/src/fullscreen.ts:99-132 | a frame has exactly the requested height and ends with the end of the dock |
| ViewportScroll.StaysOnPage | packages/tui/src/fullscreen.ts:680-694 | after any gestures and frames the position is on the page, and following means the bottom |
| ViewportScroll.Perform | packages/tui/src/fullscreen.ts:680-694 | any gestures and frames, performed on the viewport's fields, leave what the specification says |
| ViewportScroll.FollowingShowsTheEnd | packages/tui/src/fullscreen.ts:109-127 | while following, the end of the transcript is directly above the dock |
| ViewportScroll.AppendsDoNotScroll | packages/tui/src/fullscreen.ts:109-127 | appending never moves the lines a reader who scrolled up is looking at |
| ViewportScroll.ScrollRoundTrip | packages/tui/src/fullscreen.ts:680-684 | scrolling up from the bottom, no further than the top, and back by as much resumes following |
| ViewportPaint.DiffIsRightExactly | packages/tui/src/fullscreen.ts:640-672 | a row diff shows the frame if and only if the rows it kept were right before |
| ViewportPaint.DiffAfterFrame | packages/tui/src/fullscreen.ts:640-672 | painting over a screen that shows the previous frame shows the new one |
| ViewportPaint.Painter.Paint | packages/tui/src/fullscreen.ts:640-672 | one paint keeps the frame's last rows and leaves the screen that the row diff against the last frame gives, after a clear exactly if it starts over |
| ViewportPaint.PaintAll | packages/tui/src/fullscreen.ts:640-678 | under any sequence of paints, resets, size changes and arbitrary disturbances of the screen: once a paint started over, after a reset, as the first one or at another size than the paint before it, and nothing disturbed the screen since, every row shows its line of the last frame, cut to the width |
| ViewportPaint.SureExactly | packages/tui/src/fullscreen.ts:640-678 | the painter's sizes and resets make the last frame certain if and only if some paint started over and nothing disturbed the screen after it |
| ViewportPaint.SameAsRepaint | packages/tui/src/fullscreen.ts:640-672 | showing a frame is looking like a full clear and repaint of it |
| ViewportPaint.SameFrameRepairsNothing | packages/tui/src/fullscreen.ts:656-664 | painting a full frame over itself shows it if and only if the screen showed it before |
| ViewportPaint.ResizeThereAndBack | packages/tui/src/fullscreen.ts:647-652 | a size that changed and changed back between two paints goes unnoticed, and rows lost in between stay lost |
| StderrTail.TailIsLongest | andy-agent-runtime/src/rlm/mcp.py:63-76 | the specified tail is the longest suffix within both limits |
| StderrTail.FirstLineExactly | andy-agent-runtime/src/rlm/mcp.py:69-73 | a line ends behind a line feed, and behind a carriage return that no line feed follows, and nowhere earlier |
| StderrTail.TailInPieces | andy-agent-runtime/src/rlm/mcp.py:63-76 | cutting early what will be cut anyway changes nothing |
| StderrTail.Trimmed | andy-agent-runtime/src/rlm/mcp.py:69-73 | the cut by bytes and then by lines computes that tail |
| StderrTail.StderrReader.Drain | andy-agent-runtime/src/rlm/mcp.py:63-76 | while capturing, the buffer is the tail of everything read |
| StderrTail.StderrReader.StopCapture | andy-agent-runtime/src/rlm/mcp.py:78-81 | stopping empties the buffer and later reads are ignored |
| StderrTail.DrainAll | andy-agent-runtime/src/rlm/mcp.py:63-76 | for every division into reads |
| HarnessStore.LoadOfSave | andy-agent-runtime/src/rlm/harness.py:200-302 | loading a saved state gives it back |
| HarnessStore.LoadIsRepaired | andy-agent-runtime/src/rlm/harness.py:200-276 | whatever the file holds, what is loaded is well keyed and saves back to an equal store |
| HarnessStore.RepairsExactly | andy-agent-runtime/src/rlm/harness.py:200-276 | which entries of a file are loaded, and how each other field of them is repaired |
| HarnessStore.RequestsAreGentle | andy-agent-runtime/src/rlm/harness.py:346-530 | only delete removes an entry, create never overwrites, and a changed entry keeps its identity and scope with a version one higher |
| HarnessStore.Overwrite | andy-agent-runtime/src/rlm/harness.py:366-385 | updating in place touches exactly the fields that were given, as the specified entry says |
| HarnessStore.WrittenFields | andy-agent-runtime/src/rlm/harness.py:361-402 | field by field, what a write leaves: what was given, else what was there, else the default |
| HarnessStore.HarnessState.SyncFromDisk | andy-agent-runtime/src/rlm/harness.py:188-198 | after a sync a copy's entries are what the file holds |
| HarnessStore.HarnessState.Put | andy-agent-runtime/src/rlm/harness.py:346-402 | a write changes the shared store at one key: title, content and source are those given, the other fields those given or else those there or else the default, the version one higher |
| HarnessStore.HarnessState.UpsertEntry | andy-agent-runtime/src/rlm/harness.py:346-402 | refused exactly without write access or for an unknown kind, leaving the file alone; otherwise every field of the entry as for a write |
| HarnessStore.HarnessState.CreateEntry | andy-agent-runtime/src/rlm/harness.py:439-484 | creates exactly if it may, the kind is known and the key is free in the shared store, with every field as given or else the default; otherwise the file is left alone |
| HarnessStore.HarnessState.UpdateEntry | andy-agent-runtime/src/rlm/harness.py:486-530 | fails exactly without write access, for an unknown kind, or if the id is missing, leaving the file alone; otherwise every field is as for a write, and the version of that entry rises by one if and only if the id is not empty |
| HarnessStore.UpdateUnderEmptyId | andy-agent-runtime/src/rlm/harness.py:361-402 | an update of an entry stored under the empty id: that entry stays as it is, and another one is written |
| HarnessStore.HarnessState.DeleteEntry | andy-agent-runtime/src/rlm/harness.py:413-425 | removes the key from the shared store and says whether it was there |
| HarnessStore.HarnessState.GetEntry | andy-agent-runtime/src/rlm/harness.py:404-411 | reads the shared store, however stale the copy was |
| HarnessStore.UpdateThenGet | andy-agent-runtime/src/rlm/harness.py:404-530 | what one copy updates, any other copy over the file reads, field by field |
| HarnessStore.ServeAll | andy-agent-runtime/src/rlm/harness.py:188-530 | any number of copies, of any scope and with any rights, serving any requests in any order, with any ids: each copy sees every call served in turn on the two scopes' views of the file, no write lost |
| HarnessStore.SameScopeIsOneStore | andy-agent-runtime/src/rlm/harness.py:188-530 | calls from copies of one scope are requests applied in turn to one store, whatever the file held |
| HarnessStore.AgreeingViewsAreOneStore | andy-agent-runtime/src/rlm/harness.py:188-530 | the same for copies of both scopes once they see the same |
| HarnessStore.ViewsAgreeExactly | andy-agent-runtime/src/rlm/harness.py:200-276 | copies of both scopes see the same in a file if and only if every entry that loads carries its scope |
| HarnessStore.ViewsMergeExactly | andy-agent-runtime/src/rlm/harness.py:286-302 | after any calls they see the same if and only if they did before or something was saved |

## Left out

- InterruptProtocol.HitsOnlyTheAddressed: holds for runs in which no late backstop takes a reused id; without that condition it is false, for parked interrupts only (`ReusedIdMisdirectsAnInterrupt`, `EventsAreAllowedExactly`).
- InterruptProtocol.RequestFindsAddressee: speaks of requests that are not finished, while the documentation keeps a request open until done; `PromiseHoldsExactly` says when the two agree.
- InterruptProtocol.GlobalsStayConsistent: that the active and finishing ids are in flight fails after a reused id was taken; what holds in every run is `GlobalsStayRelated`.
- InterruptEveryRun.EveryRequestIsDone: a dead serve loop owes one `done` for good, and those of the queue, see `DeadLoopOwesDone`.
- InterruptWindow.TargetableOnceActive: while a running snapshot or restore commits, it parks SIGINT itself (repl.py, lines 748 and 810), and a signal then hits nothing; that section is part of `Running` in the model.
- InterruptWindow.StateRequestEscapesExactly: says which clause answers; what the answer reports, such as a commit recovered from an interrupted task (lines 878-887), is not part of the model.
- OutputPump.FeedAll: the drain waits throughout; drains that are given up are the subject of `RunSchedule` and `TokenIsCutExactly`.
- AgentRuns.HandleRunFailure: a run that breaks off inside a turn leaves that turn without a turn_end; turns are claimed to be paired for runs that return.
- AgentLoop.Loop.RunLoop: takes a limit on the number of turns; a cut-off run is still in balance, so the safety statements hold after any number of turns, but that a run ends is not claimed.
- HarnessStore.HarnessState.UpdateEntry: timestamps, refinement events, global routing, scope prefixes and the in-memory fallback are not modelled, nor is a file that is deleted while copies are alive.
- Snapshot.Take: the section from the first replace to the last cleanup is one step, because SIGINT is parked there; sorting the name lists, time stamps and versions are left out; that two paths are the same file is a parameter of `HandleSnapshot`.
- KernelBookkeeping.Bookkeeping.Request: the Windows fallback without `pthread_kill` is declared best effort and not modelled.
- The kernel's `list_names` and `shutdown` requests, cells that rebind SIGINT, and restoring a snapshot.
- Operating system and library behaviour is given by steps and parameters: pipes, signals, processes, `dill` (a dump size that grows with its entries), JSON (values as far as loading tells them apart), file modification times (fresh on every write), and terminal resizing.
- UTF-8 decoding and the rendering of buffers as text; time-outs and the drain grace period of the shell.
- Callbacks, listeners and hooks that throw, and `reset()` or an assignment to the Agent's messages during a run; the types file asks hooks not to throw.
- Returned harness entries are values: that a caller could change an entry in place before the next write is not modelled.
- The bodies of the store's merge and delta functions and the task lifecycle, which are not part of this model; the two scenarios the store script itself calls unsafe.
- The viewport's selection, hyperlinks, image placeholders and width-aware slicing: they are functions of a line here.
- Cost, model and configuration helpers, the command line, and the daemon: easy or plumbing.
