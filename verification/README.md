# Verified models of Paddle's coordination and rewriting code

This project models, in Dafny, the parts of the repository whose correctness depends on many steps
fitting together, and proves what they are for:

- **Master** (`Master`, `MasterRuns`, `MasterRestarts`, `MasterPass`, `MasterAnswers`, `MasterService`):
  the fault-tolerant task dispatcher. Tasks move between Todo, Pending, Done and Failed; epochs make late
  timeouts harmless; every change is snapshotted; a restarted master recovers. A run is any sequence of handler calls, timer firings and
  crashes, and every snapshot may succeed, be lost, or be written although an error is reported.
- **Float16 transpiler** (`Transpiler`, `TranspilerPass`): the pass that inserts casts, renames inputs
  and outputs, converts parameters and drops dead variables. Op lists get a semantics in which ordinary
  ops are arbitrary functions, and the pass is proved to preserve it.
- **xmap reader** (`Xmap`): reader, workers and consumer over bounded queues with one end token, as an
  interleaving step system, unordered and ordered.
- **Parameter-server client** (`Conn`, `Election`, `Shards`): the connection's wake-up protocol, the
  election of the trainer that initialises, and hash sharding with fan-out and fan-in.
- **Scanners** (`Brackets`, `BracketScanners`, `TemplateScans`, `Preprocessor`, `Converter`,
  `ConverterImage`, `ConverterPass`): the linter's bracket matchers and preprocessor stack, and the two-pass flattening of nested samples.

Objects that the source updates in place are classes here. Their methods state outright what they do and are
proved to perform a step function, and the whole-run theorems are proved about that function.

## What the proofs show about the code

- A pass whose last outstanding task fails for good is stuck: Todo and Pending are empty, nothing rolls
  over, and short of a restart GetTask never hands out a task again (`MasterRuns.OnlyFailureDrains`,
  `MasterRuns.DrainedForever`).
- When GetTask's own snapshot fails, the task is Pending and no timer watches it until it leaves or the master
  restarts (`MasterRuns.FailedDispatchIsUnwatched`). It can leave: TaskFinished carries no epoch, so a late
  one from an earlier dispatch finishes whatever dispatch of its task is Pending.
- When the snapshot of a departure from Pending and all later ones are lost and the master restarts, the
  dispatch is Pending again and can leave twice; `MasterRestarts.RevivedIffWritesLost` says exactly when for
  one dispatch, `MasterRestarts.LeavesOnce` and `MasterRestarts.ComesBackIffUnwritten` for whole runs.
- If the lock is lost, or FinishInitParams stops, starts over or fails in its final Done, after some server
  accepted, initialisation can never be completed; `Election.CompletableIff` says exactly when it still can.
- A connection that was closed keeps its closed client and cannot be connected again (`Conn.ClosedForGood`).
- Start positions cannot tell to which of two neighbouring samples an empty sub-sequence at their boundary
  belongs; in all other cases the image determines the batch (`ConverterImage.ImageDetermines`).

## Preconditions taken from the design

- `Transpiler.Ready`: no name ends in `.fp16` and no cast op exists beforehand; a feed target is a
  non-persistable variable written only by its one feed op, before its readers; a fetch target is a
  non-persistable variable with exactly one writer, a computing op, and is read only by its one later
  fetch op; converted parameters are never written.
- `Conn`: closing a net/rpc client on which Close was called before reports an error.
- `Election`: the etcd lock has at most one owner, can be lost at any time, and a handle that lost it
  never owns it again.
- `Xmap`: the mapper is total and there is at least one worker; a queue size that is not positive means
  unbounded.
- `Master`: failureMax is not negative, and a dataset has fewer than 2^63 chunks.

## Model

| member | source | states |
|---|---|---|
| `Master.Wrap` | go/master/service.go:112 | task ids are Go 64-bit ints: the result is in range and differs from the sum by a multiple of 2^64 |
| `Master.PartitionLoop` | go/master/service.go:106-137 | the chunk loop with its carried `cur` and `counter` computes `Partition`, for any chunks-per-task including zero and negative ones |
| `Master.PartitionIsPartition` | go/master/service.go:106-137 | tasks are non-empty, all but the last have exactly the task size, ids are pairwise distinct even when the counter wraps, counts and epochs start at 0, and the chunks concatenate back to the input |
| `Master.PartitionIsCut` | go/master/service.go:106-137 | for any chunks-per-task setting, all tasks but the last hold exactly that many chunks (one, if it is not positive), under ids that count up from the base, and concatenate back to the input |
| `MasterService.Store.Save` | go/master/service.go:207-229 | a snapshot may succeed, be lost, or be written although an error is reported |
| `MasterService.Service.constructor` | go/master/service.go:140-204 | a new master has the stored state, is ready if and only if there was one, and has armed exactly one timer per Pending entry |
| `MasterService.Service.SetDataset` | go/master/service.go:280-309 | each return in its case and no other; the accepted chunks are cut into Todo, nothing else in the queues changes, and the master is ready if and only if the save succeeded |
| `MasterService.Service.GetTask` | go/master/service.go:368-408 | each reply in exactly its case; Todo's head becomes Pending under its next epoch and nothing else moves; the task replied is the one that is Pending in memory and store and that the armed timer watches, with its chunks, and in every state that satisfies the run invariant it was never handed out under this epoch |
| `MasterService.Service.TaskFinished` | go/master/service.go:411-452 | the task goes to Done with its failures forgotten; if it was the last outstanding one, CurPass rises and Todo is all done tasks followed by all failed ones, which keep their failure counts |
| `MasterService.Service.ProcessFailedTask` | go/master/service.go:313-339 | another epoch changes nothing; otherwise one more failure, to Failed beyond failureMax and to the end of Todo up to it, whatever the snapshot does |
| `MasterService.Service.TaskFailed` | go/master/service.go:455-471 | the same for a report of a trainer, and nothing for a task that is not Pending |
| `MasterService.Service.CheckTimeout` | go/master/service.go:341-353 | the same for a fired timer, which is then disarmed |
| `MasterAnswers.GetTaskAnswers` | go/master/service.go:368-408 | the GetTask step of the run model answers, dispatches and saves as said of the method |
| `MasterAnswers.HandedIsNew` | go/master/service.go:393-407 | in a state that satisfies the run invariant the task handed out has its chunks of the dataset and an epoch under which it was never handed out |
| `MasterAnswers.TaskFinishedAnswers` | go/master/service.go:411-452 | the TaskFinished step of the run model does what is said of the method |
| `MasterAnswers.FailureAnswers` | go/master/service.go:313-339 | so does the failure step |
| `MasterAnswers.SetDatasetAnswers` | go/master/service.go:280-309 | so does the SetDataset step |
| `MasterAnswers.RecoverAnswers` | go/master/service.go:166-204 | so does recovery |
| `MasterAnswers.NeverReceivedTwice` | go/master/service.go:393-407 | in every run, with crashes and failing snapshots, no two replies of GetTask carry the same task id and epoch |
| `MasterRuns.StepInv` | go/master/service.go:280-471 | every event (handlers, timers, crash and recovery, each with any snapshot outcome) keeps the run invariant |
| `MasterRuns.RunInv` | go/master/service.go:140-471 | the invariant holds after every run |
| `MasterAnswers.ReceivedIsHanded` | go/master/service.go:393-407 | the metas in the replies of GetTask are, in order, those recorded as handed out |
| `MasterRuns.NeverHandedTwice` | go/master/service.go:393-407 | the recorded metas are pairwise different in every run; delivered epoch <= stored epoch <= epoch in memory |
| `MasterRuns.Conservation` | go/master/service.go:313-445 | in every run each task id of the dataset, with its chunks, is in exactly one of Todo, Pending, Done, Failed, in memory and in the store; the queue lengths add up; Done has failure count 0, Todo and Pending at most failureMax + CurPass, Failed within (failureMax, failureMax + CurPass + 1] |
| `MasterRuns.DatasetFixed` | go/master/service.go:285-292 | once the dataset is set it is the same in the rest of the run, restarts included |
| `MasterRuns.TimersMatchPending` | go/master/service.go:396-406 | in every run a Pending dispatch has an armed timer with exactly its id and epoch if and only if its own snapshot did not fail since the last restart; no dispatch leaves Pending twice between restarts |
| `MasterRuns.NeverStranded` | go/master/service.go:396-400 | if GetTask's snapshots succeed, no dispatch is ever without a timer |
| `MasterRuns.StaleReportsChangeNothing` | go/master/service.go:313-318 | in every run a report changes the queues if and only if it names the Pending epoch of its task; other reports change nothing and other timers only disarm themselves; a dispatch that left Pending is stale |
| `MasterRuns.FailedDispatchIsUnwatched` | go/master/service.go:396-406 | a snapshot lost inside GetTask leaves a Pending task that no trainer has and no timer watches |
| `MasterRuns.DispatchBound` | go/master/service.go:313-396 | in every run a pass of N tasks makes at most N * (failureMax + 1) dispatches between restarts, and at most failureMax + 1 of any one task |
| `MasterPass.StepWorks` | go/master/service.go:313-445 | every dispatch, finish and effective failure that does not end the pass strictly decreases the measure of work left |
| `MasterPass.PassIsFinite` | go/master/service.go:313-445 | within one pass, in every run, the number of events that changed the queues plus the work left is at most the work left before |
| `MasterPass.PassBound` | go/master/service.go:313-445 | so at most N * (2 * failureMax + 2) events change the queues in one pass between restarts |
| `MasterRuns.PassRises` | go/master/service.go:419-445 | CurPass rises by one exactly when TaskFinished takes the last outstanding task, and then every task is in Todo again |
| `MasterRuns.OnlyFailureDrains` | go/master/service.go:313-338 | Todo and Pending become empty together if and only if a report or timer takes the last outstanding task for the last time (it names the Pending epoch, Todo is empty, nothing else is Pending, the failure count has reached failureMax), and then Failed is not empty |
| `MasterRuns.OneFailureDrains` | go/master/service.go:313-338 | a concrete run that gets there: one chunk, no retries, one failure |
| `MasterRuns.DrainedForever` | go/master/service.go:384-391 | from then on no event short of a restart changes the queues or CurPass, and GetTask keeps answering that nothing is available |
| `MasterRestarts.RestartIsInvisible` | go/master/service.go:166-204 | if no snapshot is lost, a restart recovers the interrupted state itself, with a timer per Pending entry |
| `MasterRestarts.StepStores` | go/master/service.go:207-229 | a ready master saves exactly when it changed its queues |
| `MasterRestarts.WatchedIsStored` | go/master/service.go:393-406 | in every run each Pending dispatch whose own snapshot succeeded is Pending in the store |
| `MasterRestarts.RevivedIffWritesLost` | go/master/service.go:313-338 | in every run, a dispatch that left Pending is Pending again after a restart if and only if the store had it Pending when it left (as it has every dispatch whose own snapshot succeeded) and the snapshot of its departure and every later one up to the restart was lost |
| `MasterRestarts.LeavesOnce` | go/master/service.go:313-338 | if no restart finds a departure that was not written since, each dispatch leaves Pending at most once over the whole run, restarts included, and is never Pending again |
| `MasterRestarts.LeavingIsDeparture` | go/master/service.go:313-441 | the record of departures is exact: an event adds a dispatch if and only if it takes it out of Pending |
| `MasterRestarts.ComesBackIffUnwritten` | go/master/service.go:313-338 | when GetTask's own snapshots succeed that condition is exact: some dispatch that left comes back in the course of the run if and only if some restart finds an unwritten departure |
| `MasterRestarts.LostFailureComesBack` | go/master/service.go:320-325 | a concrete run in which a failed dispatch is Pending again after a restart |
| `Transpiler.TranspilePreservesMeaning` | paddle/contrib/float16/float16_transpiler.py:22-256 | for every block that meets the preconditions, every scope and every interpretation of the ops, the transpiled ops fetch exactly what the original ops compute when each feed and each converted parameter is replaced by its float16 cast and each fetched value is cast back |
| `Transpiler.IdentityCastChangesNothing` | paddle/contrib/float16/float16_transpiler.py:22-256 | if casts lose nothing, the fetched results are those of the original program |
| `Transpiler.OpMeans` | paddle/contrib/float16/float16_transpiler.py:22-256 | in the semantics used, an op changes exactly the names it writes, each to the value its last output of that name has, and only a fetch delivers anything, the value of its input |
| `Transpiler.ConvertedExactly` | paddle/contrib/float16/float16_transpiler.py:218-231 | converted are exactly the persistable variables, but for feed and fetch lists, that no batch_norm op reads |
| `Transpiler.NormsAreKept` | paddle/contrib/float16/float16_transpiler.py:204-218 | the batch_norm ops of the result are those of the block, and read their persistable inputs under the old names |
| `Transpiler.SimulatesPrefix` | paddle/contrib/float16/float16_transpiler.py:123-256 | the simulation holds after every prefix of the original ops and its image |
| `Transpiler.ErasureRestores` | paddle/contrib/float16/float16_transpiler.py:155-201 | erasing the casts and undoing the renames gives back the op list, and there is exactly one new op per feed and fetch op |
| `Transpiler.ResultUses` | paddle/contrib/float16/float16_transpiler.py:82-201 | every name that the transpiled ops use is declared by the pass |
| `TranspilerPass.Float16Transpiler.FindOp` | paddle/contrib/float16/float16_transpiler.py:142-153 | returns the first op that writes the name, or none if no op does |
| `TranspilerPass.Float16Transpiler.CastFeed` | paddle/contrib/float16/float16_transpiler.py:158-178 | inserts the cast right after the feed, declares the float16 variable, records the rename; fails exactly where a name is missing |
| `TranspilerPass.Float16Transpiler.CastFetch` | paddle/contrib/float16/float16_transpiler.py:179-200 | renames the output of the first writer and inserts the cast right before the fetch; fails exactly where a name or writer is missing |
| `TranspilerPass.Float16Transpiler.FeedTurn` | paddle/contrib/float16/float16_transpiler.py:156-178 | at a feed op the loop goes from the image of k ops to the image of k + 1 ops, two places further on |
| `TranspilerPass.Float16Transpiler.FetchTurn` | paddle/contrib/float16/float16_transpiler.py:179-200 | likewise at a fetch op |
| `TranspilerPass.Float16Transpiler.ModifyFeedFetch` | paddle/contrib/float16/float16_transpiler.py:123-201 | the loop over the list it is growing terminates and ends in the image of the original ops, the feed targets' input map and one new variable per target |
| `TranspilerPass.Float16Transpiler.ConvertParams` | paddle/contrib/float16/float16_transpiler.py:203-256 | for any iteration order, every converted parameter has a float16 copy in the scope, its variable is replaced, and its rename is recorded |
| `TranspilerPass.Float16Transpiler.CastAndConvert` | paddle/contrib/float16/float16_transpiler.py:66-72 | after the first two steps all that separates the ops from `Result` is the renaming of inputs, the scope is converted, and every name that `Result` uses is declared |
| `TranspilerPass.Float16Transpiler.RenameInputs` | paddle/contrib/float16/float16_transpiler.py:91-106 | successive rename calls on one op amount to one simultaneous rename |
| `TranspilerPass.Float16Transpiler.AdjustInput` | paddle/contrib/float16/float16_transpiler.py:82-106 | every op but the casts has its inputs renamed |
| `TranspilerPass.Float16Transpiler.RemoveUnusedVars` | paddle/contrib/float16/float16_transpiler.py:108-121 | a variable stays, unchanged, if and only if some op has it among its inputs or its outputs |
| `TranspilerPass.Float16Transpiler.Transpile` | paddle/contrib/float16/float16_transpiler.py:22-79 | the four steps make exactly `Result` of the block and convert the scope; declared are exactly the names that some op reads or writes, each as before or as the float16 copy of a variable; every batch_norm still reads its persistable inputs by name, and these keep variable and value |
| `Xmap.StepInv` | benchmark/fluid/imagenet_reader.py:161-237 | every step of reader, workers and consumer keeps the invariant: one end token, one report per exited worker and, in ordered mode, the indices in hand form the interval from the number put to the number taken |
| `Xmap.RunInv` | benchmark/fluid/imagenet_reader.py:161-237 | so does every interleaving; it takes at most 7 * (input length) + 4 * workers + 1 steps, not counting turns of the spin loop, which change nothing |
| `Xmap.StepMeasure` | benchmark/fluid/imagenet_reader.py:161-237 | every step decreases a non-negative measure |
| `Xmap.RunConserves` | benchmark/fluid/imagenet_reader.py:176-183 | in every interleaving the mapped samples taken so far are those in a worker's hands, queued or yielded, with multiplicity |
| `Xmap.NeverStuck` | benchmark/fluid/imagenet_reader.py:176-237 | until the consumer stops some thread can move, whatever the queue capacity |
| `Xmap.FrontMoves` | benchmark/fluid/imagenet_reader.py:187-198 | when no ordered worker is between its test and its counter update, the worker with the smallest index passes its spin test |
| `Xmap.DeliversExactlyOnce` | benchmark/fluid/imagenet_reader.py:152-237 | every interleaving takes finitely many steps (turns of the spin loop, which change nothing, are not steps), is not stuck before the consumer stops, and then the yielded multiset is the mapper image of the reader's output |
| `Xmap.DeliversInOrder` | benchmark/fluid/imagenet_reader.py:167-237 | ordered mode yields at all times a prefix of the mapped input in order, all of it at the end, and at most one worker is ever between its test and its counter update |
| `Xmap.QueuesBounded` | benchmark/fluid/imagenet_reader.py:152-237 | in every interleaving no queue of positive capacity holds more than its capacity |
| `Xmap.BlockedOnlyWhenFull` | benchmark/fluid/imagenet_reader.py:152-237 | a thread is held up by a queue exactly when that queue is full, or for a taker empty |
| `Conn.NoLostWakeUp` | go/connection/conn.go:41-120 | for any interleaving of Connect, Call and Close: waitConn is set only while there is no client, every parked Call waits on it or on a closed channel, an installed client leaves no Call asleep, and every dialled client neither installed nor held had Close called |
| `Conn.NoDoubleClose` | go/connection/conn.go:71-79 | installing a client closes exactly the channel the sleepers wait on, which was never closed before |
| `Conn.ClosedForGood` | go/connection/conn.go:41-63 | in every reachable state with a client, no continuation ever drops or replaces it if and only if Close was called on it; a net/rpc client that was closed reports an error when closed again |
| `Conn.CloseCloses` | go/connection/conn.go:41-50 | a concrete run: after connect and close the client is closed |
| `Conn.ReconnectFails` | go/connection/conn.go:41-63 | a concrete run that gets there: connect, close, and a Connect that fails |
| `Conn.Connection.constructor` | go/connection/conn.go:35-39 | starts with no client and no waiter |
| `Conn.Connection.Close` | go/connection/conn.go:41-50 | calls Close on the client, if there is one, and changes nothing else |
| `Conn.Connection.ConnectDrop` | go/connection/conn.go:53-63 | calls Close on the client, if there is one, and forgets it unless that fails |
| `Conn.Connection.ConnectInstall` | go/connection/conn.go:71-90 | without a client: installs the new one, closes the channel of the sleepers and forgets it; with one: closes the new one and reports an error |
| `Conn.Connection.CallEnter` | go/connection/conn.go:99-120 | the client to use, or else the channel there is to wait on, or else a new one that later callers share |
| `Election.StepInv` | go/pserver/client/etcd_client.go:162-242 | every lock, transaction and RPC step keeps the election invariant |
| `Election.ElectionIsSafe` | go/pserver/client/etcd_client.go:162-242 | in every run, with the lock lost at any time: when a Done commits, every server accepted its one FinishInitParams from that session; at most one session's Done ever commits; Select returns (false, nil) only after that commit |
| `Election.CompletableIff` | go/pserver/client/client.go:133-141 | in every reachable state some continuation commits a Done if and only if one is committed already, or every server that accepted did so for the session that owns the lock and is past it in its running FinishInitParams |
| `Election.DeadForever` | go/pserver/client/client.go:133-141 | once that chance is lost it never comes back |
| `Election.SurvivesIff` | go/pserver/client/client.go:133-141 | once a server has accepted, an event ends the chance if and only if it is a loss of the lock, a new start, a lost reply or a lost Done of the session that can still finish |
| `Election.LostLockIsFatal` | go/pserver/client/client.go:133-141 | a concrete run that loses it: one of two servers accepts, then the lock is lost |
| `Election.FailedDoneIsFatal` | go/pserver/client/client.go:133-141 | a Done that does not commit, for whatever reason, loses it as well if there is a server, because the next FinishInitParams is turned away by the first one |
| `Election.LostDoneIsFatal` | go/pserver/client/etcd_client.go:215-230 | a concrete run of this kind: one server, and a Done transaction that never gets through |
| `Election.Etcd.SelectTxn` | go/pserver/client/etcd_client.go:179-210 | chosen if and only if the transaction is answered, the lock is owned and nothing is done yet; already done if and only if answered, owned and done, and then it unlocks; an error otherwise; the lock is kept only when chosen |
| `Election.Etcd.Done` | go/pserver/client/etcd_client.go:215-242 | nil if and only if the transaction is answered and the lock held and still owned; the done key is set if and only if it was or the transaction is carried out under an owned lock, even when an error is reported; the lock is forgotten only when Unlock gets through |
| `Shards.Server.InitParam` | go/pserver/service.go:229-256 | adds the parameter, or refuses once initialised and changes nothing |
| `Shards.Server.FinishInitParams` | go/pserver/service.go:260-281 | accepts exactly once |
| `Shards.Server.SendGrad` | go/pserver/service.go:285-307 | a matching gradient for a known name is applied by the library and nothing else changes, with an error if and only if the library returns a non-zero code; every other gradient changes nothing and the error names the cause |
| `Shards.Server.GetParam` | go/pserver/service.go:311-335 | the current weights under the name, or an error if there are none |
| `Shards.FinishInitParams` | go/pserver/client/client.go:133-141 | succeeds if and only if no server was initialised; on failure exactly the servers up to the first initialised one are initialised; parameters are untouched |
| `Shards.Home` | go/pserver/client/client.go:235-237 | the shard index is in range |
| `Shards.HomeIsRemainder` | go/pserver/client/client.go:235-237 | and is the remainder of the hash by the number of servers |
| `Shards.InitParamSetsOne` | go/pserver/client/client.go:127-129 | the client's InitParam sets its own name of the flat map and no other, or changes nothing if that name's server is initialised |
| `Shards.ShardsRefineFlatMap` | go/pserver/client/client.go:145-237 | on initialised shards, handling gradients does to each name of one flat map what that name's gradients do in their order, and creates no name |
| `Shards.GradientsAreApplied` | go/pserver/service.go:285-307 | when they match, the gradients of a name have been applied by the library to its optimizer, one after the other, wherever it lives |
| `Shards.MismatchesAreIgnored` | go/pserver/service.go:285-307 | a gradient that does not match, or has no parameter, changes no shard |
| `Shards.SameByName` | go/pserver/client/client.go:145-169 | two gradient sequences that agree name by name end in the same shards |
| `Shards.SendOrderIrrelevant` | go/pserver/client/client.go:145-169 | with distinct names every interleaving of the goroutines ends in the same state |
| `Shards.AwaitGrads` | go/pserver/client/client.go:145-169 | an empty list is refused; otherwise nil if and only if no goroutine reports an error, and if not, the first error to arrive |
| `Shards.SortByIdx` | go/pserver/client/client.go:177-216 | sorting the replies by index loses and adds none |
| `Shards.GetParams` | go/pserver/client/client.go:192-224 | for every arrival order: waits for ever if and only if there are no names, an error if and only if some reply has one, otherwise the reply for names[i] at position i |
| `Shards.GetParamsQuiet` | go/pserver/client/client.go:192-224 | without concurrent updates it reads the flat map, and is refused if and only if a name is missing |
| `BracketScanners.FindEndOfExpressionInLine` | paddle/scripts/cpplint.py:1411-1486 | on every line and stack the loop decides as `FwdAll` does; an end is found only at the partner of the bottom bracket, which a carried stack keeps; and unless the bottom bracket is '<' the outcome is the exact forward scan's, with the waiting '<' dropped from the stack |
| `BracketScanners.CloseExpression` | paddle/scripts/cpplint.py:1489-1530 | on every text, from a round, square or curly bracket (or any character but '<'): where the exact multi-line forward scan ends, or (number of lines, -1); from '<': what the guesses of `CloseAll` say |
| `BracketScanners.FindStartOfExpressionInLine` | paddle/scripts/cpplint.py:1533-1606 | the same backward, with '>' in the place of '<' |
| `BracketScanners.ReverseCloseExpression` | paddle/scripts/cpplint.py:1609-1645 | the same backward over lines, or (0, -1) |
| `BracketScanners.FwdAllIsFwd` | paddle/scripts/cpplint.py:1411-1486 | guesses at template brackets never change the outcome of a forward scan above a real bracket |
| `BracketScanners.BwdAllIsBwd` | paddle/scripts/cpplint.py:1533-1606 | nor that of a backward scan, although it skips characters |
| `BracketScanners.CloseAllIsClose` | paddle/scripts/cpplint.py:1489-1530 | so over lines, from every character but '<', `CloseAll` is the exact scan |
| `BracketScanners.OpenAllIsOpen` | paddle/scripts/cpplint.py:1609-1645 | and backward, from every character but '>' |
| `BracketScanners.CodeScansAreInverse` | paddle/scripts/cpplint.py:1489-1645 | the code's two scans are inverse on every text, template brackets or not, between any two positions that are not '<' and '>' themselves |
| `BracketScanners.GuessesDisagree` | paddle/scripts/cpplint.py:1411-1645 | from '<' they are not: in `a < b >= c` the forward scan ends at the '>' of `>=`, and the backward scan from there finds nothing |
| `TemplateScans.TemplateCloses` | paddle/scripts/cpplint.py:1411-1486 | on text in which every '<' and '>' is a well-nested template bracket, an arrow, a shift or an operator's name, the forward scan from a template bracket finds its partner, and nothing if a statement ends or an outer bracket closes first |
| `TemplateScans.TemplateOpens` | paddle/scripts/cpplint.py:1533-1606 | the same backward, but for operators' names |
| `TemplateScans.TemplateScansAgree` | paddle/scripts/cpplint.py:1411-1645 | so on a template argument list in one line the two scans agree |
| `Brackets.FwdFindsBlocks` | paddle/scripts/cpplint.py:1411-1486 | the forward scan consumes exactly a text if and only if that text is a matched bracket pair around a balanced text |
| `Brackets.BwdFindsBlocks` | paddle/scripts/cpplint.py:1533-1606 | the same for the backward scan |
| `Brackets.CloseFinds` | paddle/scripts/cpplint.py:1489-1530 | the scan from (l, p) ends just past (m, q) if and only if the text between them is a matched block |
| `Brackets.OpenFinds` | paddle/scripts/cpplint.py:1609-1645 | the backward scan from (m, q) ends at (l, p) if and only if the text between them is a matched block |
| `Brackets.ScansAreInverse` | paddle/scripts/cpplint.py:1489-1645 | the two exact scans are inverse, in both directions and across lines |
| `Preprocessor.NestingState.UpdatePreprocessor` | paddle/scripts/cpplint.py:2344-2399 | #if remembers the stack; #else and #elif bring it back, the first of them remembering the stack before; #endif gives back what the first #else remembered; without an open conditional nothing changes |
| `Preprocessor.FirstBranchStack` | paddle/scripts/cpplint.py:2344-2399 | in the first branch the stack is that of its own lines |
| `Preprocessor.LaterBranchStack` | paddle/scripts/cpplint.py:2374-2383 | in every later branch, at every depth, the stack is as if that branch had been entered from before the #if, and the conditional remembers what the first branch left |
| `Preprocessor.NestingState.Update` | paddle/scripts/cpplint.py:2402-2425 | line by line the object performs the run of the text |
| `Preprocessor.OnlyFirstBranchCounts` | paddle/scripts/cpplint.py:2344-2399 | for every well-nested text, every per-line stack change and every start state, the nesting stack afterwards is that of the text with all branches but the first deleted at all depths and directives ignored, and the conditional stack is as before |
| `Converter.GetSizeIsSize` | paddle/py_paddle/dataprovider_converter.py:240-244 | get_size is the number of innermost elements |
| `Converter.ConvertIndex` | paddle/py_paddle/dataprovider_converter.py:193-213 | an index slot becomes the list of its ids |
| `Converter.ConvertSequence` | paddle/py_paddle/dataprovider_converter.py:216-244 | a sequence slot becomes its start positions and the conversion of its concatenated items, at every depth |
| `Converter.StartsAscend` | paddle/py_paddle/dataprovider_converter.py:230-233 | start positions begin at 0, grow by the samples' sizes and end at the total |
| `Converter.OuterStartsAreInner` | paddle/py_paddle/dataprovider_converter.py:230-244 | every outer start position is an inner start position |
| `Converter.ConvertRoundTrip` | paddle/py_paddle/dataprovider_converter.py:254-279 | at every nesting depth the input is rebuilt from flat data and position lists if no sequence ends in an empty one |
| `Converter.SubSequenceRoundTrip` | paddle/py_paddle/dataprovider_converter.py:285-308 | the particular decoder `Rebuild`, which gives an empty sub-sequence between two samples to the second, restores a nested batch if and only if no sample ends in an empty sub-sequence |
| `ConverterImage.FlatImageDetermines` | paddle/py_paddle/dataprovider_converter.py:285-308 | two batches of a slot of ids, sparse rows or flat sequences have the same image if and only if they are equal |
| `ConverterImage.SameImage` | paddle/py_paddle/dataprovider_converter.py:285-308 | two batches of a nested slot have the same image if and only if they have the same sub-sequences in order and the same start positions |
| `ConverterImage.ImageDetermines` | paddle/py_paddle/dataprovider_converter.py:285-308 | for any decoder: the image of a nested slot determines the batch if and only if no sample but the last ends in an empty sub-sequence and no sample but the first begins with one |
| `ConverterImage.CrispIsPositional` | paddle/py_paddle/dataprovider_converter.py:230-244 | which is the case if and only if no empty sub-sequence starts where a sample other than the first starts |
| `ConverterImage.Regrouped` | paddle/py_paddle/dataprovider_converter.py:230-244 | for every batch that violates this, another batch with the same sub-sequences and start positions |
| `ConverterImage.EmptyInnerIsAmbiguous` | paddle/py_paddle/dataprovider_converter.py:230-244 | the smallest such pair, both of which violate it |
| `Converter.SparseRoundTrip` | paddle/py_paddle/dataprovider_converter.py:154-190 | rows, columns and values rebuild every sparse sample, empty rows included |
| `Converter.SparseContents` | paddle/py_paddle/dataprovider_converter.py:154-190 | a sparse slot holds the columns of all samples in order, with values their values in order, and without values none |
| `ConverterPass.FinishReserves` | paddle/py_paddle/dataprovider_converter.py:199-233 | the first pass reserves exactly what the second pass writes |
| `ConverterPass.ScannerObject.Leaf` | paddle/py_paddle/dataprovider_converter.py:154-198 | a new leaf scanner is empty |
| `ConverterPass.ScannerObject.Nest` | paddle/py_paddle/dataprovider_converter.py:216-221 | a new sequence scanner starts at position 0 around the given one |
| `ConverterPass.ScannerObject.PreScan` | paddle/py_paddle/dataprovider_converter.py:199-225 | counts one sample, recursively |
| `ConverterPass.ScannerObject.FinishPreScan` | paddle/py_paddle/dataprovider_converter.py:202-228 | allocates what was counted, recursively |
| `ConverterPass.ScannerObject.Measure` | paddle/py_paddle/dataprovider_converter.py:240-244 | computes get_size |
| `ConverterPass.ScannerObject.ScanSample` | paddle/py_paddle/dataprovider_converter.py:162-233 | writes one sample, only into reserved slots, recursively |
| `ConverterPass.ScannerObject.ScanColumn` | paddle/py_paddle/dataprovider_converter.py:230-233 | writes a list of samples in order, only into reserved slots |
| `ConverterPass.ScannerObject.ConvertColumn` | paddle/py_paddle/dataprovider_converter.py:265-277 | after the two passes an index slot holds the ids, a sparse slot all columns and, only if it has values, all values, and a sequence slot the start positions around the conversion of the items |

## Left out

- etcd, net/rpc, gob, gzip, recordio and file reading: the store is one durable cell with identity encoding, the chunk list read is a parameter, and RPCs are steps.
- Two masters alive at once (go/master/etcd_client.go): runs are of one master at a time.
- The random and time-based id base of partition: an arbitrary parameter; epoch, pass and failure counters are unbounded integers.
- RequestSaveModel: one field with a timer, easy and unrelated to the queues.
- Checkpoints of the parameter server, the optimizer's arithmetic and the FNV hash: the update and the hash are arbitrary functions.
- Shards.Server.SendGrad: a matching gradient of length zero, on which the source takes the address of its first byte and panics, is passed to the library.
- Races inside one parameter-server handler: the `initialized` test and the locked section are one step here.
- monitorPservers, Desired and List of the pserver's etcd client: they only watch keys.
- Election.ElectionIsSafe: says which session's attempt commits; a trainer that selects twice counts as two sessions, and a done key with an unexpected value is not modelled.
- Xmap.DeliversExactlyOnce: threads are steps on a shared state value, not Dafny objects; with no worker the consumer waits for ever, which is excluded.
- Xmap.DeliversInOrder: the start-up of ordered mode (benchmark/fluid/imagenet_reader.py:206-209) passes too few arguments to its reader; the worker bodies are modelled, not the start-up.
- Transpiler.TranspilePreservesMeaning: an op's named input and output slots are flattened to lists of argument names, data types are reduced to half and full, and rounding inside float16 ops is whatever the arbitrary op functions do.
- BracketScanners.CodeScansAreInverse: says nothing of scans that start at a '<' or '>', where both directions guess and need not agree; TemplateScans.TemplateScansAgree is about those on well-formed argument lists in one line.
- Preprocessor.NestingState.Update: the regular expressions that recognise directives and the brace logic of a line are an arbitrary function; copies of stack elements are values, so sharing between a saved and the live stack is not captured.
- ConverterPass.ScannerObject.ConvertColumn: one slot at a time; convert interleaves the slots of a sample, which share no state.
- DenseScanner, GPU matrices and the swig setters: plain copying.
- Style checks and messages of the linter, benchmark networks, kube templates and argument parsing: no logic that spans operations.
