# Windmill, verified

A Dafny model of the parts of Windmill whose correctness is hardest to see by reading, and proofs about it:

- **Workflow-as-code replay** (`Keys`, `Steps`, `Replay`, `Refinement`, `ReplayLoop`, `FlakyStep`, `Child`, `Context`,
  `Backend`, `Parallel`, `InlineChain`). A workflow is re-run from the start against a checkpoint. Calls found in the checkpoint
  return the stored outcome, the first unfinished await suspends with everything pending, the worker carries that out,
  and the workflow is replayed. A task function runs in a child job that replays the same workflow with
  `_executing_key` set. The main results: the loop of replays returns what running every step in place returns, every
  recorded step is dispatched or run once, and there is exactly one replay more than actions that suspend; a child runs
  exactly the call its parent dispatched, so the loop runs the task functions themselves; concurrent inline steps lose
  no acknowledged result.
- **Source maps in the debug adapter** (`Alphabet`, `Vlq`, `SourceMap`): the Base64 VLQ decoder with JavaScript's
  32-bit shifts and the two-way line index built with it.
- **The debug session** (`Session`): console output buffered while stepping, and the `terminated` event.
- **Ephemeral backends** (`WorktreePool`, `Ports`): a pool and a port allocator shared by interleaved requests.
- **The evaluation suite's worker pool** (`WorkerPool`), **Base64** (`Base64`) and **template-literal escaping**
  (`Template`).

`dafny verify dfyconfig.toml` checks the whole project.

## How the model is set up

A workflow is a deterministic function from the outcomes seen so far to the next action: an awaited batch of task calls,
an inline step, a sleep, an approval, or the end. `World` holds everything outside it: job results, function bodies,
approvals, whether checkpoint requests succeed. What an inline body does may differ each time it is run; the run in place
runs each body once, so it takes the result of the first time. `RoundAfter` is one replay against a checkpoint, in parent or child mode;
`LoopAfter` is the loop of replays; `IsDirect` describes the run in which every step is simply executed in place.
`Context.WorkflowCtx` is the SDK's object with its fields updated in place, and `Context.RunReplay` drives a workflow
through it; the methods are proved to compute the functions above. Protocols with awaits are state machines over
events, one event per stretch of code between two awaits, and their theorems quantify over all event sequences. Where
the source keeps state in an object, that object is a class whose methods are tied to those events.

`n` in `RoundAfter` and `LoopAfter` counts actions and is universally quantified; it bounds nothing.

The replay theorems assume `WellBehaved` and `Steady`. `WellBehaved`: along the direct run, keys do not collide and
results survive storage. Both halves are characterised exactly (`KeysDistinctIff`, `JobReadBackIff`,
`InlineReadBackIff`), and `ParallelWellBehaved` shows a family of workflows that meets it. `Steady`: an inline body that
threw throws the same error whenever the loop runs it again. Replays follow the direct run exactly if that is so, for
each action (`ReplayedAgainIff`), each replay (`RoundFollowsIff`) and the whole loop (`LoopFollowsIff`); `FlakyStep` has
a workflow with a throwing body that meets both assumptions and one that breaks the second. `JobsAreChildren`, which ties
jobs to child replays, is met by every well-behaved world whose inline bodies return and whose jobs report what their
functions do (`ChildrenProduceJobs`).

## Where a property fails

These properties do not hold of the code as it is. Each has a lemma that shows a failing run or value and one that says
exactly when the property holds.

- Step keys are unique only if no used name is another used name with `_k` appended (`TwoNamesClash`, `KeysDistinctIff`).
- A result survives the checkpoint only if it is not `undefined` (inline steps) and not itself an object tagged
  `__wmill_error` (`InlineReadBackIff`, `JobReadBackIff`).
- An inline body that throws leaves no checkpoint entry, so every later replay runs it again. If it then does something
  else, the loop departs from the run in place: a job returns "A" after having dispatched the fallback of the branch that
  returns "B" (`FlakyRunDiffers`; exactly when: `ReplayedAgainIff`, `LoopFollowsIff`). If it throws the same error, it is
  run once exactly when no later action suspends, and otherwise once more for each that does (`ThrowingBodyRuns`,
  `FlakyRunSame`). A child's replay never gets past such a body (`ChildRunsIff`).
- A task function that throws makes its child report a failure only if the workflow lets the exception out before awaiting anything but
  empty batches. If the workflow catches it and returns, the child's job succeeds and the step is recorded with the
  workflow's return value; if it catches it and awaits something else, the child reports nothing
  (`FailureReportedIff`).
- A replay that saw a half-completed batch would drop the dispatch of the unfinished members exactly if a failed member
  comes before the first of them (`FailedSiblingDropsDispatch`). The worker resumes a parent only after all children
  ended (`AnyOrderResumes`), and under that rule it never happens (`RoundFollowsDirect`).
- While the job-status row does not exist, a checkpoint request that is aborted while its handler may still write can
  overwrite an acknowledged result (`AbandonedRequestOverwrites`). After every run in which this did not happen, an event
  is safe for all that may follow exactly if it is not such an abort (`InlineChain.SafeEventIff`).
- VLQ numbers are decoded correctly exactly below magnitude 2^30 (`DecodedIff`).
- Console output is in order exactly when no message arrives outside a step while earlier ones are buffered
  (`InOrderIff`); a failed step command can leave such a buffer (`FailedStepReorders`).
- A failed process start sends `terminated` without consulting the flag, and the closing of its connection sends it again
  (`FailedStartSendsTwice`). The client gets at most one exactly when no start failed, or one failed and nothing else
  ended the session (`AtMostOneTerminatedIff`).
- A worktree is used by a backend until it has given it back and its start has ended. Two backends get into one worktree
  by overlapping acquires, by a second release of what another backend uses by then, or by a cleanup that releases it
  while the backend's own start is still at work there (`OverlappingAcquiresShare`, `SecondReleaseShares`,
  `EarlyReleaseShares`). After every orderly run an event is safe for all that may follow exactly if it is none of these
  (`WorktreePool.SafeEventIff`).
- A cleanup deletes the registry entry of its commit, but it does not stop a start that is going on. Running backends come
  to share ports when a cleanup that began during a start ends (`EarlyCleanupClashes`), or when a backend that has stopped
  is cleaned up again while its commit is registered anew (`SecondCleanupClashes`). After every run without these an event
  is safe for all that may follow exactly if it is neither (`Ports.SafeEventIff`).
- Template literals turn carriage returns into line feeds (`EscapeRoundTripIff`).

The comment inside `_nextStep` says that later `then` calls also throw; the code returns a promise that never settles,
and the model follows the code. The comment of `parseSourceMapLineMapping` says "LAST/HIGHEST" original line; the code
keeps the highest.

## Model

| member | source | states |
|---|---|---|
| Keys.KeyInjectiveIff | typescript-client/client.ts:1514-1518 | on a set of names, keys determine name and occurrence if and only if no name is another one followed by `_k`, k >= 2 |
| Keys.KeysDistinctIff | typescript-client/client.ts:1514-1518 | the calls of a run get pairwise different keys if and only if no used name equals a key of a repeated use of a used name |
| Keys.TwoNamesClash | typescript-client/client.ts:1514-1518 | the second `load` and the first `load_2` get the same key |
| Keys.DecimalValue | typescript-client/client.ts:1517-1517 | an occurrence number is printed as its decimal digits, most significant first, without a leading zero |
| Keys.KeyForm | typescript-client/client.ts:1514-1518 | the first call under a name has the name as key, the n-th the name, an underscore and the digits of n |
| Keys.DecimalInjective | typescript-client/client.ts:1517-1517 | different occurrence numbers print differently |
| Keys.AllocatedKeysPrefix | typescript-client/client.ts:1514-1518 | later calls never change the keys of earlier ones |
| Steps.JobReadBackIff | typescript-client/client.ts:1529-1538 | a job's outcome survives being stored by the worker and read by the call exactly when the job did not succeed with an error-tagged object; a failure arrives with its message, error, step key and child job, an undefined result as null |
| Steps.InlineReadBackIff | typescript-client/client.ts:1643-1653 | an inline result survives storage exactly when it is neither undefined nor error-tagged; undefined comes back as null |
| Steps.SleepSeconds | typescript-client/client.ts:1632-1637 | one second below 1.5, and otherwise the nearest whole number of seconds |
| Refinement.SettleRecorded | typescript-client/client.ts:1529-1538 | a batch whose jobs are all recorded settles as the jobs run in place would, first failure in order |
| Refinement.SettleFresh | typescript-client/client.ts:1555-1582 | a batch of new calls suspends at its first member and carries all members in order, each with its call's arguments, name, script and kind under its own key |
| Refinement.FirstRunSends | typescript-client/client.ts:1555-1582 | the same for what is sent when a replay stops at a batch |
| Refinement.ReplayedAgainIff | typescript-client/client.ts:1643-1664 | an action already seen is replayed with its first outcome if and only if it is not an inline body that threw and now does something else |
| Refinement.RoundFollowsDirect | typescript-client/client.ts:1508-1731 | a replay from any checkpoint of the direct run hands out the direct run's outcomes, runs nothing again but inline bodies that threw, never gets stuck, and stops at the first new action that suspends, with a request whose completion is the checkpoint of a longer direct history; bodies that threw are assumed to throw the same error again |
| Refinement.RoundFollowsIff | typescript-client/client.ts:1643-1664 | all states of a replay are those of the direct run if and only if every inline body that threw throws the same error again |
| Refinement.RoundStopsAtNext | typescript-client/client.ts:1565-1582 | a replay whose first new action suspends (tasks, sleep, approval, or an inline result that was not accepted) stops exactly there, with the request for that action |
| Refinement.FailedSiblingDropsDispatch | typescript-client/client.ts:1529-1582 | at any checkpoint with an unfinished member: the dispatch of everything unfinished and pending is dropped if and only if a failed member comes before the first unfinished one; otherwise the batch suspends and carries all of it |
| Refinement.SuspendedBatchPends | typescript-client/client.ts:1567-1572 | once suspended, a batch settles by its first failed member, never if there is none and a member is unfinished, and else with all stored values |
| Refinement.SuspendedBatch | typescript-client/client.ts:1567-1572 | such a batch dispatches nothing; its unfinished members only become pending |
| Refinement.TrailingSteps | backend/windmill-worker/src/bun_executor.rs:1653-1690 | a workflow that returns with steps pending has all of them dispatched; one that throws or has none ends |
| ReplayLoop.OneRound | typescript-client/client.ts:1508-1731 | one replay and its completion keep: the checkpoint is that of the direct history up to the next stop, every recorded step happened once, every throwing body once per replay that reached it, and nothing else happened |
| ReplayLoop.DuplicateKeysRefused | backend/windmill-worker/src/bun_executor.rs:2428-2440 | the job breaks if and only if a replay asks for several steps with one key |
| ReplayLoop.LoopFollowsDirect | typescript-client/client.ts:1508-1731 | after k replays the loop stands for the direct history up to its k-th stop, if bodies that threw throw the same error again |
| ReplayLoop.ReplayRefinesDirect | typescript-client/client.ts:1902-1911 | if running in place ends with an outcome, the loop ends with the same one after exactly one replay more than there are actions that stop one; recorded steps were dispatched or run exactly once, throwing bodies once per replay that reached them, other keys never |
| ReplayLoop.LoopFollowsIff | typescript-client/client.ts:1659-1664 | all replays of the loop follow the direct run if and only if every inline body that threw throws the same error each time the loop runs it again |
| ReplayLoop.ThrowingBodyRuns | typescript-client/client.ts:1659-1664 | over the whole loop a throwing body is run once plus once for each later action that stops a replay; exactly once if and only if there is none |
| ReplayLoop.StopsAreRecorded | typescript-client/client.ts:1529-1538 | the number of stops is at most the number of recorded steps |
| FlakyStep.FlakyRunDiffers | typescript-client/client.ts:1659-1664 | a body that throws once and then returns: in place the workflow returns "B", the loop dispatches the fallback and returns "A" |
| FlakyStep.FlakyRunSame | typescript-client/client.ts:1659-1664 | a body that always throws: the loop returns "B" like the run in place, and runs the body twice |
| FlakyStep.FlakySteadyIff | typescript-client/client.ts:1659-1664 | the assumption holds of that workflow exactly when the body throws the same error again |
| ReplayLoop.PrefixStable | typescript-client/client.ts:1508-1555 | any two replays of the loop make the same calls with the same names, arguments and keys as far as both go, if bodies that threw throw the same error again |
| ReplayLoop.RecordedGrows | typescript-client/client.ts:1529-1538 | checkpoints of longer histories keep all earlier entries and add none under earlier keys |
| Child.ChildIsSafe | typescript-client/client.ts:1541-1553 | for every workflow and checkpoint a child queues, dispatches, sleeps, asks and checkpoints nothing, runs no inline body, runs only functions with its own key, and suspends only with `step_complete` |
| Child.ChildFollowsDirect | typescript-client/client.ts:1655-1657 | a child follows the direct run up to the first inline body that threw and no further |
| Child.ChildRunsDispatchedCall | typescript-client/client.ts:1801-1809 | the child runs exactly the call the parent dispatched, both with the arguments, name, script and kind of the workflow's call, and completes the step with the function's value |
| Child.OwnStepOrFailure | typescript-client/client.ts:1541-1553 | a child that finds a failed sibling hands that failure to the workflow unless its own function settles first |
| Child.ChildRunsIff | typescript-client/client.ts:1655-1657 | the child gets to run its function if and only if no earlier inline body threw; otherwise it never settles |
| Child.ChildJobIsFunction | backend/windmill-worker/src/bun_executor.rs:1661-1676 | the child's job reports exactly the function's value, and nothing before |
| Child.FailureReportedIff | backend/windmill-worker/src/bun_executor.rs:1661-1688 | when the function throws: nothing is reported while the workflow awaits empty batches; then the child reports a failure if and only if the workflow lets an exception out, a success with the workflow's own return value if it returns, and nothing otherwise |
| Child.BatchIsItsFunctions | typescript-client/client.ts:1801-1809 | parent and child replays together: awaiting a batch whose functions return yields their values in order |
| Child.JobIsItsFunction | backend/windmill-worker/src/bun_executor.rs:1661-1688 | if jobs are ended child replays, the job of a function that returns succeeds with its value, and the job of one whose exception the workflow lets out fails with its message |
| Child.LoopRunsFunctions | typescript-client/client.ts:1801-1809 | for a whole run whose inline bodies return and whose functions return or throw what the workflow lets out, the loop ends with the outcome of calling the task functions in place |
| Child.ChildrenProduceJobs | typescript-client/client.ts:1801-1809 | conversely, jobs that report what such functions do are what child replays produce |
| Backend.SomeDone | backend/windmill-worker/src/result_processor.rs:949-1017 | after some children ended exactly their entries were added and the counter is the number still out |
| Backend.AnyOrderResumes | backend/windmill-worker/src/result_processor.rs:977-1027 | in whatever order children end, the parent resumes exactly after the last one, with the checkpoint the loop continues from |
| Context.WorkflowCtx.constructor | typescript-client/client.ts:1508-1511 | an empty context over a checkpoint |
| Context.WorkflowCtx.AllocKey | typescript-client/client.ts:1514-1518 | the next key is the one the sequence of names determines |
| Context.WorkflowCtx.NextStep | typescript-client/client.ts:1520-1566 | each case of the call: stored value, stored error with all its fields, own function, endless wait, or a queued step that carries the call's own arguments, name, script and kind; what was ever queued is what was handed out followed by what is pending |
| Context.WorkflowCtx.Then | typescript-client/client.ts:1567-1581 | the first `then` hands out everything pending, "parallel" exactly for more than one step; later ones never settle; at most one such suspension |
| Context.WorkflowCtx.FlushPending | typescript-client/client.ts:1585-1589 | hands out and clears what is pending |
| Context.WorkflowCtx.WaitForApproval | typescript-client/client.ts:1591-1618 | stored value, endless wait in a child, or a suspension with the given timeout or 1800 and self approval disabled exactly when it was given as false |
| Context.WorkflowCtx.Sleep | typescript-client/client.ts:1620-1638 | undefined once done, endless wait in a child, or a suspension |
| Context.WorkflowCtx.RunInlineStep | typescript-client/client.ts:1640-1732 | replayed, endless in a child, or run once and then posted, thrown, or suspended with the same key and result |
| Context.QueuedOnce | typescript-client/client.ts:1555-1589 | steps queued by a run without key collisions are pairwise different |
| Context.AwaitAll | typescript-client/client.ts:1566-1582 | calling `then` on each member in order settles as the model's `Promise.all` and empties `pending` at most once |
| Context.RunReplay | backend/windmill-worker/src/bun_executor.rs:1653-1690 | a replay through a context object computes the model's replay |
| Parallel.ParallelDirect | typescript-client/client.ts:1946-1960 | the batching loop returns one result per item in item order, or nothing for a concurrency of zero or less |
| Parallel.ParallelWellBehaved | typescript-client/client.ts:1946-1960 | `parallel` uses collision-free keys and storable results, whatever the items, the concurrency and the jobs that fail, if no result imitates an error entry |
| Parallel.OneBatchPerRound | typescript-client/client.ts:1954-1958 | as long as no earlier job failed, each replay dispatches exactly the next at most `concurrency` items, each step with its item as arguments |
| Parallel.ParallelInOrder | typescript-client/client.ts:1946-1960 | if no job fails: exactly ceil(n / c) suspended replays, then the results of all items in item order, each item dispatched once |
| Parallel.ParallelThrowsFirst | typescript-client/client.ts:1954-1957 | if item i is the first whose job fails: exactly i / c + 1 suspended replays, then that job's failure is thrown; items up to the end of its batch were dispatched once, later ones never |
| Parallel.ParallelNothing | typescript-client/client.ts:1951-1952 | without items, or with a concurrency of zero or less, the first replay returns the empty list |
| InlineChain.OneRequestInFlight | typescript-client/client.ts:1690-1721 | in every interleaving at most one checkpoint request is in flight, requests settle in order, and a failed one does not block the next |
| InlineChain.CallersToldTheirOwn | typescript-client/client.ts:1718-1731 | in every run each caller is told nothing until its request settled, then its own result, or to suspend with its own key and result; an undefined result is never acknowledged |
| InlineChain.HandlerLeaves | backend/windmill-common/src/wac.rs:143-164 | a handler that commits or rolls back lets the next one begin; a rollback leaves no trace |
| InlineChain.AcknowledgedSurvives | backend/windmill-common/src/wac.rs:189-269 | every result a caller was given is in the stored checkpoint, and no earlier entry is lost, unless a request is aborted while there is no row and its handler may still write |
| InlineChain.AbandonedRequestOverwrites | backend/windmill-common/src/wac.rs:148-154 | without a row, an aborted request overwrites an acknowledged result |
| InlineChain.SafeEventIff | backend/windmill-common/src/wac.rs:143-164 | after any run free of it, an event leaves all results safe in every continuation if and only if it is not an abort, without a row, of a request whose handler may still write |
| InlineChain.NothingLostIff | backend/windmill-common/src/wac.rs:143-164 | results are safe in all runs if and only if the row exists or such aborts do not occur |
| Vlq.DecodeVlq | debugger/dap_websocket_server_bun.ts:546-570 | the loop computes the digit-by-digit decoding with 32-bit shifts, other characters skipped |
| Vlq.DecodedIff | debugger/dap_websocket_server_bun.ts:556-564 | one number survives encoding by ECMA-426 and decoding if and only if its magnitude is below 2^30 |
| Vlq.RoundTripIff | debugger/dap_websocket_server_bun.ts:546-570 | the same for every list of numbers |
| Vlq.OthersIgnored | debugger/dap_websocket_server_bun.ts:553-554 | characters outside the alphabet change nothing, wherever they stand |
| Vlq.UnfinishedDropped | debugger/dap_websocket_server_bun.ts:559-568 | a number whose last digit is missing is dropped, those before it are kept |
| Vlq.ShlWraps | debugger/dap_websocket_server_bun.ts:557-557 | shifts count modulo 32 and are exact modulo 2^32 |
| Vlq.AccumulatedExact | debugger/dap_websocket_server_bun.ts:557-557 | the additions and shifts are exact below 2^31 |
| SourceMap.AddPoint | debugger/dap_websocket_server_bun.ts:635-655 | recording a point keeps the least transpiled and the greatest original lines |
| SourceMap.ParseLine | debugger/dap_websocket_server_bun.ts:624-657 | one line's segments add exactly their points |
| SourceMap.ParseMappings | debugger/dap_websocket_server_bun.ts:617-663 | original lines map to their least transpiled line and transpiled lines to their greatest original line, over exactly the points of the map |
| SourceMap.PointsAreSums | debugger/dap_websocket_server_bun.ts:624-657 | the k-th point is on the line of the k-th segment with at least three fields, and its original line is the sum of the third fields of all such segments up to it |
| SourceMap.ThereAndBack | debugger/dap_websocket_server_bun.ts:575-590 | o <= t2o(o2t(o)) and o2t(t2o(t)) <= t, with all lookups defined |
| SourceMap.SplitJoin | debugger/dap_websocket_server_bun.ts:621-625 | splitting undoes joining for parts without the separator |
| SourceMap.SourceMapRoundTripIff | debugger/dap_websocket_server_bun.ts:592-664 | parsing an encoded map recovers its points if and only if every original-line delta is below 2^30 in magnitude |
| SourceMap.AbsoluteRoundTripIff | debugger/dap_websocket_server_bun.ts:592-664 | from absolute original lines, delta coded across line ends, parsing recovers every segment's transpiled and original line if and only if consecutive original lines are less than 2^30 apart |
| Base64.Uint8ArrayToBase64 | typescript-client/client.ts:1105-1156 | the three-byte loop writes the bit-string encoding of section 4 of RFC 4648 |
| Base64.EncodeChunk | typescript-client/client.ts:1119-1131 | masks and shifts pick the four sextets of three bytes |
| Base64.EncodedLength | typescript-client/client.ts:1105-1156 | 4 * ceil(n / 3) characters |
| Base64.DecodeEncode | typescript-client/client.ts:1096-1098 | decoding undoes encoding for every byte array |
| Base64.UrlDecodeEncode | debugger/dap_websocket_server_bun.ts:339-345 | the padding rule undoes the unpadded URL-safe encoding of section 5 of RFC 4648 |
| Base64.UrlSafe | debugger/dap_websocket_server_bun.ts:339-345 | the URL-safe form has no plus, slash or padding |
| Base64.LoneDigitRefused | debugger/dap_websocket_server_bun.ts:339-345 | a single digit left over is refused |
| Base64.UrlBadLength | debugger/dap_websocket_server_bun.ts:339-345 | a length of 4k + 1 is refused, whatever the characters, spaces included |
| Session.DebugSession.SendPendingOutput | debugger/dap_websocket_server_bun.ts:1109-1114 | the buffer is sent in order and emptied, and stepping ends |
| Session.DebugSession.HandlePaused | debugger/dap_websocket_server_bun.ts:1014-1115 | `stopped`, then the buffered output; nothing at the injected first pause |
| Session.PauseStops | debugger/dap_websocket_server_bun.ts:1102-1114 | in every state a pause that stops the client sends `stopped`, then everything buffered, and ends stepping |
| Session.ResultEnds | debugger/dap_websocket_server_bun.ts:1258-1285 | a captured result sends everything buffered, then `terminated` unless claimed; one that does not parse changes nothing |
| Session.TerminateAnswers | debugger/dap_websocket_server_bun.ts:2424-2428 | a terminate request is answered before the `terminated` it owes |
| Session.AnswersInOrder | debugger/dap_websocket_server_bun.ts:1014-1115 | in every run the `stopped` events and answers sent are exactly those the events call for, in order; only a first pause at the injected statement calls for none |
| Session.DebugSession.HandleConsoleMessageAdded | debugger/dap_websocket_server_bun.ts:1309-1314 | buffered while stepping, else sent |
| Session.DebugSession.HandleResult | debugger/dap_websocket_server_bun.ts:1258-1285 | flush, then `terminated` unless it was sent |
| Session.DebugSession.EndStep | debugger/dap_websocket_server_bun.ts:2337-2392 | a failed step command ends stepping without a flush |
| Session.DebugSession.BeginTerminate | debugger/dap_websocket_server_bun.ts:2418-2423 | the flag is set before the await |
| Session.NoOutputLost | debugger/dap_websocket_server_bun.ts:1302-1315 | in every run outputs sent and pending are, as a multiset, those received |
| Session.InOrderIff | debugger/dap_websocket_server_bun.ts:1309-1314 | outputs are in order if and only if none arrives outside a step while earlier ones are buffered |
| Session.FailedStepReorders | debugger/dap_websocket_server_bun.ts:2337-2392 | a message buffered in a step that fails is overtaken by the next one |
| Session.InOrderWithoutFailures | debugger/dap_websocket_server_bun.ts:2337-2392 | if no step command fails outputs are in order |
| Session.StepOutputAfterStopped | debugger/dap_websocket_server_bun.ts:1102-1114 | output of a step that ends in a pause which stops the client, the injected first pause passed over, is sent right after its `stopped` event and none of it before |
| Session.TerminatedCount | debugger/dap_websocket_server_bun.ts:1274-1279 | over every interleaving, `terminated` events sent or owed are one per failed start and one more if a parsed result, exit, close or terminate request occurred |
| Session.AtMostOneTerminatedIff | debugger/dap_websocket_server_bun.ts:1533-1538 | with no terminate request waiting, at most one was sent if and only if no start failed, or one failed and none of those occurred |
| Session.DebugSession.SendTerminatedOnce | debugger/dap_websocket_server_bun.ts:1722-1731 | sends `terminated` and sets the flag unless it is set |
| Session.DebugSession.HandleLaunchFailure | debugger/dap_websocket_server_bun.ts:1533-1538 | sends `terminated` and leaves the flag alone |
| Session.FailedStartSendsTwice | debugger/dap_websocket_server_bun.ts:1869-1886 | a start that fails after it connected sends one, the closing of its connection another |
| Session.NormalRunSendsOnce | debugger/dap_websocket_server_bun.ts:1717-1733 | a session that starts, exits and closes sends one |
| WorktreePool.Pool.Discover | ephemeral-backends/worktree-pool.ts:47-94 | exactly the found ids, all free, distinct and below `nextId` |
| WorktreePool.Pool.BeginAcquire | ephemeral-backends/worktree-pool.ts:100-116 | the first free worktree, or a new id |
| WorktreePool.Pool.EndAcquire | ephemeral-backends/worktree-pool.ts:107-120 | the worktree is in use; other entries are untouched |
| WorktreePool.Pool.Release | ephemeral-backends/worktree-pool.ts:190-204 | the worktree is free; an unknown id changes nothing |
| WorktreePool.Pool.GetStats | ephemeral-backends/worktree-pool.ts:216-230 | total = in use + available, with the count of used entries |
| WorktreePool.IdsNeverClash | ephemeral-backends/worktree-pool.ts:156-157 | at every interleaving pool ids and ids being created are distinct and below `nextId` |
| WorktreePool.ReleasedIsReused | ephemeral-backends/worktree-pool.ts:104-111 | a worktree that was given back is there for the next acquire, which then creates none |
| WorktreePool.FailedAcquireUndone | ephemeral-backends/worktree-pool.ts:126-184 | an acquire that fails leaves the pool as it was and can be tried again; at most an id is used up |
| WorktreePool.ForgottenIsSafe | ephemeral-backends/spawn.ts:83-90 | once a start has given its worktree back and cleared its reference, no cleanup gives it back again |
| WorktreePool.NeverHeldTwice | ephemeral-backends/worktree-pool.ts:100-121 | if no acquire picks a worktree being prepared and none is given back while another backend or the backend's own start uses it, no worktree is used by two backends |
| WorktreePool.SafeEventIff | ephemeral-backends/spawn.ts:652-666 | after any orderly run, an event leaves worktrees exclusive in every orderly continuation if and only if it is none of the three: overlapping acquire, second release of what another uses, release during the backend's own start |
| WorktreePool.EarlyReleaseShares | ephemeral-backends/spawn.ts:652-666 | a cleanup during the build of one backend lets the next one into its worktree |
| WorktreePool.ExclusiveIff | ephemeral-backends/spawn.ts:83-90 | exclusive in all runs if and only if none of the three occurs |
| Ports.FindFree | ephemeral-backends/manager.ts:649-661 | the smallest unregistered port of the range, failing exactly when all 100 are taken |
| Ports.FullNeedsHundred | ephemeral-backends/manager.ts:649-675 | ports 5433 to 5532, or 8002 to 8101, are all taken only if at least 100 backends are registered |
| Ports.Manager.Spawn | ephemeral-backends/manager.ts:285-388 | duplicate refused; else the smallest free pair is registered and all registered pairs stay distinct |
| Ports.Manager.OnCleanup | ephemeral-backends/manager.ts:305-312 | the entry of the commit goes |
| Ports.RegisteredApart | ephemeral-backends/manager.ts:285-388 | in every reachable registry the ports are pairwise distinct |
| Ports.SafeEventIff | ephemeral-backends/manager.ts:305-339 | after any run free of them, an event leaves running and starting backends on ports of their own in every continuation if and only if it is not the end of a cleanup that deletes an entry and whose backend had stopped before, or whose backend's start was going on when it began |
| Ports.EarlyCleanupClashes | ephemeral-backends/manager.ts:337-339 | a cleanup during a start frees the ports the start goes on to use |
| Ports.SecondCleanupClashes | ephemeral-backends/manager.ts:305-312 | a second cleanup frees the ports of the next backend for the same commit |
| Ports.RunningApartIff | ephemeral-backends/manager.ts:305-320 | running and starting backends never share a port, in all runs, if and only if neither kind of cleanup occurs |
| WorkerPool.RunCaseAttempts | ai_evals/core/runSuite.ts:84-308 | exactly `runs` attempts, numbered from 1; an attempt passed if and only if its run did not crash and passed |
| WorkerPool.SharedState.Claim | ai_evals/core/runSuite.ts:38-41 | the next index, once |
| WorkerPool.SharedState.Store | ai_evals/core/runSuite.ts:42-59 | the result goes to the case's own index |
| WorkerPool.EachCaseOnce | ai_evals/core/runSuite.ts:36-65 | for every interleaving each case is claimed once, in order, by exactly min(max(1, concurrency), cases) workers, and each result belongs to its index |
| WorkerPool.CompleteInOrder | ai_evals/core/runSuite.ts:63-67 | when all workers stopped, result i has the id of case i and attempts 1..runs, each passed if and only if that run of case i passed |
| Template.EscapeIsOnePass | system_prompts/utils.py:221-223 | the three whole-string replacements equal a single-pass escape |
| Template.UnchangedIff | system_prompts/utils.py:221-223 | text is left alone if and only if it has no backslash, no backtick and no start of a substitution |
| Template.CookedEscape | system_prompts/generate.py:612-613 | the escaped literal is well formed and evaluates to the text with line endings normalised |
| Template.EscapeRoundTripIff | system_prompts/utils.py:221-223 | the literal evaluates to the original text if and only if it has no carriage return |

## Left out

- Workflows that run several multi-step async branches at once, start tasks without awaiting them, or catch `StepSuspend`: a batch is built, then awaited; only `FlushPending` and the wrapper's trailing dispatch are modelled for unawaited steps.
- Promise and microtask mechanics beyond: a batch is built before any `then` runs, `then` is called in order, an await is a step boundary; whether a child's function settles before a failed sibling is left open (`settlesFirst`).
- Per-task options (timeout, tag, cache, priority, concurrency) and the mapping of positional to named arguments: copied field by field.
- JavaScript prototype lookups in `counters` and `completed`; occurrence counts beyond 2^53; JSON changes to values other than `undefined` becoming `null`.
- Source-hash validation, job timelines, permissions, cancellation and partial push failures in the worker.
- Child.FailureReportedIff: what the worker makes of a child that writes no result (it fails the job if the process exits) is not modelled; the child reports nothing.
- InlineChain: the promise chain is a state machine over values, not an object; the worker's own fallback write of the same key and value is not modelled.
- Base64.Uint8ArrayToBase64: the byte array is a sequence; `atob` is modelled from the Infra standard's forgiving decode.
- SourceMap.ParseMappings: starts from the `mappings` string; the data URL, JSON parsing and logging are not modelled.
- Vlq.DecodeVlq: sums beyond 2^53 (millions of continuation digits) are not rounded as a double would be.
- Exception output, stderr output and evaluation in the debug session, and the Python debugger.
- Git, docker, cloudflared, HTTP and process handling of the ephemeral backends: only success or failure of an await remains, and a cleanup stops at its beginning whatever runs then.
- A worker of the evaluation suite that throws outside the attempt loop; progress events, judging and checks.
- Template-literal escapes other than those the escaper produces; `extract_balanced` and the other text utilities; JWT verification, OpenAPI clients, SQL templates, benchmarks and user interface: they would only add easy members.
