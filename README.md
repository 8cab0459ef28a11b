# NServiceBus batching sample: the batch coordinator, modelled in Dafny

The sample coordinates one large job of `WorkCount` work orders. A saga gets
`StartProcessing`. It sends the orders to workers as `ProcessWorkOrder`
messages, in batches of 100. It records each `WorkOrderCompleted` that comes
back. When the current batch is complete it sends the next batch. When the
number of recorded completions equals `WorkCount` it sends itself the single
`WorkAllDone`.

The project models three source files:

- `extensions.dfy` (module `Extensions`) is the batch partitioner
  `Batch` / `BatchWithDefaultSize`. It also models `Enumerable.Range`, which
  the sagas use to build the id range they batch.
- `coordinator.dfy` (module `Coordinator`) gives the saga's state and
  decisions as values. It holds the progress record, the saga data, and one
  function per handler. A handler's effect is a `Step`: the new state, plus
  the messages sent, in order.
- `batching_saga.dfy` (module `BatchingSaga`) models
  `NServiceBus.Batching/ProcessingSaga.cs`. `generator_saga.dfy` (module
  `GeneratorSaga`) models `WorkGenerator/ProcessingSaga.cs`. Each has the
  classes `WorkProgress`, `ProcessingSagaData` and `ProcessingSaga`. Their
  fields are updated in place, as in the source. Every handler is proved to
  compute the `Coordinator` step, so the two variants behave the same.
- `scenarios.dfy` (module `Scenarios`) covers whole runs: a start, then a
  sequence of completions.
- `messages.dfy` (module `Messages`) holds the message records of
  `SharedMessages/Messages.cs`. It also has a `MessageContext` whose `Send`
  and `SendLocal` append to an outbox, `Sent`.

Completions are recorded the way the source records them: `List.Add`
appends, so a duplicate completion is counted again. As a result, a
duplicate can make the saga send `WorkAllDone` before every order is done.
Each completion adds exactly one to the count, so the completion that
reaches `WorkCount` always sends `WorkAllDone`. Once the count passes
`WorkCount`, no further completion sends anything: neither `WorkAllDone` nor
another batch (`Scenarios.DuplicateFinishesEarly`,
`Scenarios.ReachingTotalSendsDone`, `Scenarios.OvercountIsFinal`).

The query members `IsAllComplete` / `AllWorkCompleted`, `ImportedPages`,
`IsCurrentBatchCompleted` and `HasRemainingWork` are class predicates and
functions. Each is defined by the matching `Coordinator` definition applied
to the object's fields (`Model()`). By those definitions: all complete means
the number of recorded ids equals the total; imported counts the recorded
ids; a batch is complete when every flag is set, which an empty map
satisfies vacuously; remaining work means the total minus the count is
positive.

Points where the code decides and the model follows it:

- `Batch` groups by `inx / maxItems` with C#'s truncating division.
  - A negative `maxItems` groups exactly as `|maxItems|` does.
  - `maxItems == 0` throws only if at least one item is enumerated, so the
    precondition is `maxItems != 0 || items == []`.
- `WorkGenerator/ProcessingSaga.cs` calls `range.Batch(batchSize: 100)`.
  `Extensions.Batch` names its parameter `maxItems`, so that call binds to a
  `Batch` extension outside these files. The model gives it the same
  semantics: the first chunk of 100.
- `StartNewBatch` fills the map with `IDictionary.Add`, which throws on a
  key that is already there. The model returns `ok == false` in that case,
  with the map holding the pages before the first repeat. The sagas only
  ever pass a range, and the proofs show `ok` always holds there.
- `StartWork` / `SendWorkRequest` read `orders[0]` and `orders[^1]` for a
  log line, so an empty list would throw. These private methods require a
  non-empty list; their one caller always passes one.
- The saga's `ProcessId` is filled in by the framework's correlation, not by
  the handlers. The model takes it as given.

If completions were kept as a set, a repeated completion would have no
effect. The code appends them to a list instead, and the model follows the
code.

## Model

| member | source | states |
|---|---|---|
| `Extensions.Batch` | NServiceBus.Batching/Extensions.cs:12-17 | no chunks exactly when there are no items; every chunk has between 1 and `|maxItems|` items, and every chunk but the last has exactly `|maxItems|`; requires a non-zero size unless the input is empty |
| `Extensions.BatchWithDefaultSize` | NServiceBus.Batching/Extensions.cs:5-10 | equals `Batch(items, 100)`; its chunks concatenate back to `items`; chunks hold 1 to 100 items, all but the last exactly 100 |
| `Extensions.BatchFlatten` | NServiceBus.Batching/Extensions.cs:12-17 | concatenating the chunks gives back the input exactly, in order, with no gap or overlap |
| `Extensions.BatchChunkAt` | NServiceBus.Batching/Extensions.cs:14-16 | chunk `k` is exactly the items at indices `k*n .. min((k+1)*n, |items|) - 1` (`n = |maxItems|`) |
| `Extensions.BatchAt` | NServiceBus.Batching/Extensions.cs:14-16 | item `k*n + j` with `j < n` is item `j` of chunk `k`, so chunks appear in ascending key order |
| `Extensions.BatchGroupKey` | NServiceBus.Batching/Extensions.cs:15 | item `i` is in the chunk numbered by its key `|inx / maxItems|` (C# truncating division), at offset `i % |maxItems|` |
| `Extensions.BatchRangeUnfold` | NServiceBus.Batching/Extensions.cs:12-17 | batching a range longer than the size gives its first `n` integers, then the batches of the rest of the range |
| `Extensions.BatchRangeFirst` | NServiceBus.Batching/Extensions.cs:12-17 | for `count > 0` the first chunk of `Range(s, count)` is `[s .. s + min(n, count) - 1]` |
| `Coordinator.MarkCompleteSpec` | NServiceBus.Batching/ProcessingSaga.cs:112-116 | the count grows by exactly one, the old list is a prefix and the new id is last (duplicates included); the id's flag is set, its key inserted if absent; no other flag changes |
| `Coordinator.HasRemaining` | WorkGenerator/ProcessingSaga.cs:140-145 | remaining work and all-complete never hold together |
| `Coordinator.MarkTwice` | WorkGenerator/ProcessingSaga.cs:110-114 | completing the same id twice leaves the flags as after once, but counts two completions |
| `Coordinator.PendingComplete` | NServiceBus.Batching/ProcessingSaga.cs:128-140 | a freshly started batch is complete only if it has no pages; the empty map of a new progress is complete |
| `Coordinator.StartBatchKeys` | NServiceBus.Batching/ProcessingSaga.cs:133-140 | after a new batch, the keys are exactly the pages, all not done, and the completions are unchanged |
| `Coordinator.NextBatchRange` | NServiceBus.Batching/ProcessingSaga.cs:39-42 | the first chunk of `BatchWithDefaultSize(Range(imported+1, remaining))` exists and is `[imported+1 .. imported+min(100, remaining)]`: non-empty, at most 100 ids, none repeated |
| `Coordinator.ImportNextCases` | NServiceBus.Batching/ProcessingSaga.cs:30-47 | all complete: only `WorkAllDone`, state unchanged; remaining work: the batch is replaced by the next range, one work order per id in ascending order, no `WorkAllDone`; otherwise (e.g. a negative count): nothing sent, nothing changed |
| `Coordinator.OnStartCases` | NServiceBus.Batching/ProcessingSaga.cs:18-28 | start sets the work count and leaves no recorded completion; with 0 work exactly one `WorkAllDone` and no work order; with positive work the batch `1 .. min(100, workCount)`, whose work orders are the only messages; with negative work nothing; with no positive work the saga keeps its process id, the work count and a fresh, empty progress |
| `Coordinator.OnCompletedDone` | NServiceBus.Batching/ProcessingSaga.cs:49-63 | if the recorded count reaches the total after marking, `WorkAllDone` is the only message; a completion sends `WorkAllDone` (at most one) exactly when the new state is all complete |
| `Coordinator.WorkOrdersNoDone` | NServiceBus.Batching/ProcessingSaga.cs:73-86 | dispatching a batch never sends `WorkAllDone` |
| `BatchingSaga.WorkProgress.constructor` | NServiceBus.Batching/ProcessingSaga.cs:103-107 | a new progress has no completions and an empty batch |
| `BatchingSaga.WorkProgress.MarkPageComplete` | NServiceBus.Batching/ProcessingSaga.cs:112-116 | appends the page to the done list and sets its flag (`MarkComplete` on the old state) |
| `BatchingSaga.WorkProgress.IsAllComplete` | NServiceBus.Batching/ProcessingSaga.cs:118-121 | holds exactly when the number of recorded pages, repeats included, equals the total |
| `BatchingSaga.WorkProgress.ImportedPages` | NServiceBus.Batching/ProcessingSaga.cs:123-126 | the number of recorded pages, repeats included |
| `BatchingSaga.WorkProgress.IsCurrentBatchCompleted` | NServiceBus.Batching/ProcessingSaga.cs:128-131 | holds exactly when every page in the batch map is flagged done; holds for an empty map |
| `BatchingSaga.WorkProgress.StartNewBatch` | NServiceBus.Batching/ProcessingSaga.cs:133-140 | succeeds exactly when the pages are distinct, and then the batch is the pages, all not done; on a repeated page (where `Add` throws) the batch holds the pages before the first repeat; the done list is unchanged |
| `BatchingSaga.ProcessingSaga.HandleStartProcessing` | NServiceBus.Batching/ProcessingSaga.cs:18-28 | new state and sent messages are `Coordinator.OnStart`'s, with a freshly allocated progress |
| `BatchingSaga.ProcessingSaga.ImportNextBatch` | NServiceBus.Batching/ProcessingSaga.cs:30-47 | new state and sent messages are `Coordinator.ImportNext`'s |
| `BatchingSaga.ProcessingSaga.HandleWorkOrderCompleted` | NServiceBus.Batching/ProcessingSaga.cs:49-63 | new state and sent messages are `Coordinator.OnCompleted`'s |
| `BatchingSaga.ProcessingSaga.HandleWorkAllDone` | NServiceBus.Batching/ProcessingSaga.cs:65-71 | the saga is marked complete |
| `BatchingSaga.ProcessingSaga.StartWork` | NServiceBus.Batching/ProcessingSaga.cs:73-86 | appends one `ProcessWorkOrder(ProcessId, order)` per order, in list order, to the outbox |
| `BatchingSaga.ProcessingSaga.StartPostWorkProcess` | NServiceBus.Batching/ProcessingSaga.cs:88-97 | appends `WorkAllDone` only when all pages are complete |
| `GeneratorSaga.WorkProgress.constructor` | WorkGenerator/ProcessingSaga.cs:101-105 | a new progress has no completions and an empty batch |
| `GeneratorSaga.WorkProgress.MarkWorkComplete` | WorkGenerator/ProcessingSaga.cs:110-114 | appends the id to the completed list and sets its flag (`MarkComplete` on the old state) |
| `GeneratorSaga.WorkProgress.AllWorkCompleted` | WorkGenerator/ProcessingSaga.cs:116-119 | holds exactly when the number of recorded completions, repeats included, equals the total |
| `GeneratorSaga.WorkProgress.ImportedPages` | WorkGenerator/ProcessingSaga.cs:121-124 | the number of recorded completions, repeats included |
| `GeneratorSaga.WorkProgress.IsCurrentBatchCompleted` | WorkGenerator/ProcessingSaga.cs:126-129 | holds exactly when every id in the batch map is flagged done; holds for an empty map |
| `GeneratorSaga.WorkProgress.HasRemainingWork` | WorkGenerator/ProcessingSaga.cs:140-145 | holds exactly when fewer completions are recorded than the total; then the work is not all complete |
| `GeneratorSaga.WorkProgress.StartNewBatch` | WorkGenerator/ProcessingSaga.cs:131-138 | as in the other variant: distinct pages give exactly those keys, all not done; a repeat stops at the first repeated page; completions unchanged |
| `GeneratorSaga.ProcessingSagaData.constructor` | WorkGenerator/ProcessingSaga.cs:150-153 | new saga data already holds a fresh, empty progress |
| `GeneratorSaga.ProcessingSaga.HandleStartProcessing` | WorkGenerator/ProcessingSaga.cs:18-28 | new state and sent messages are `Coordinator.OnStart`'s, with a freshly allocated progress |
| `GeneratorSaga.ProcessingSaga.ImportNextBatch` | WorkGenerator/ProcessingSaga.cs:30-45 | new state and sent messages are `Coordinator.ImportNext`'s |
| `GeneratorSaga.ProcessingSaga.HandleWorkOrderCompleted` | WorkGenerator/ProcessingSaga.cs:47-59 | new state and sent messages are `Coordinator.OnCompleted`'s |
| `GeneratorSaga.ProcessingSaga.HandleWorkAllDone` | WorkGenerator/ProcessingSaga.cs:61-67 | the saga is marked complete |
| `GeneratorSaga.ProcessingSaga.SendWorkRequest` | WorkGenerator/ProcessingSaga.cs:69-84 | resets the batch to the orders, then appends one `ProcessWorkOrder` per order in list order |
| `GeneratorSaga.ProcessingSaga.FinishWork` | WorkGenerator/ProcessingSaga.cs:86-95 | appends `WorkAllDone` only when all work is complete, nothing otherwise |
| `Scenarios.RunRecords` | WorkGenerator/ProcessingSaga.cs:47-59 | over any sequence of completions the process id and work count stay fixed and every completion is appended, repeats included |
| `Scenarios.Round` | WorkGenerator/ProcessingSaga.cs:47-59 | completing a freshly dispatched batch exactly once, in any order, sends nothing until its last completion, which acts on the fully flagged batch |
| `Scenarios.RoundOutcome` | WorkGenerator/ProcessingSaga.cs:30-59 | after the last chunk, that completion sends the single `WorkAllDone`; otherwise it sends the work orders of the next chunk and the saga waits on it |
| `Scenarios.RunChunks` | WorkGenerator/ProcessingSaga.cs:30-59 | completing each remaining chunk exactly once dispatches every later chunk in turn, then one `WorkAllDone` |
| `Scenarios.EndToEnd` | WorkGenerator/ProcessingSaga.cs:18-59 | from a start with `workCount >= 0`, completing each dispatched batch exactly once sends the batches 1..100, 101..200, ... up to `workCount`, i.e. ids `1 .. workCount` once each in ascending order, then exactly one `WorkAllDone` |
| `Scenarios.DuplicateFinishesEarly` | NServiceBus.Batching/ProcessingSaga.cs:49-56 | with two orders, completing order 1 twice sends `WorkAllDone` though order 2 never completed; order 2's later completion sends nothing |
| `Scenarios.ReachingTotalSendsDone` | NServiceBus.Batching/ProcessingSaga.cs:49-56 | a run of completions that takes the count from below the total to at least the total sends at least one `WorkAllDone` |
| `Scenarios.OvercountIsFinal` | NServiceBus.Batching/ProcessingSaga.cs:112-126 | once the count exceeds the total, all-complete never holds again and no further completion sends anything |

## Left out

- Logging (`Console.WriteLine`) is not modelled. `StartedAt` and the elapsed time in `Handle(WorkAllDone)` are not modelled either: they are console I/O and the clock.
- `ConfigureHowToFindSaga`, saga persistence, correlation routing and what `MarkAsComplete` does in the framework are not modelled. `Handle(WorkAllDone)` only sets a `completed` flag.
- `async`/`await` and the thread safety of `ConcurrentDictionary` are not modelled. Handlers run one at a time, and `BatchPages` is a plain `map<int, bool>`.
- The transport behind `context.Send` / `SendLocal` is not modelled. Delivery, retries and routing lie outside it: sending only appends to an outbox sequence.
- A `Guid` is modelled as an integer, because the handlers only copy correlation keys and compare them for equality.
- C# `int` is 32 bits. The model uses unbounded integers for work counts, ids and the `WorkCount - importedPages` subtraction. So it does not capture overflow near `int.MinValue` or `int.MaxValue`, nor `Enumerable.Range` throwing when `start + count - 1` exceeds `int.MaxValue`.
- The model computes `Batch` as a whole list of chunks, and `.First()` takes chunk 0 after the model proves the list non-empty. The source's `GroupBy` enumerates the whole input as soon as the first group is requested, so the model leaves out no observable behaviour. It leaves out only the deferred execution: nothing is enumerated until `.First()` is called.
- WorkProcessor/Program.cs, NServiceBus.WorkProcessor/WorkProcessingHandler.cs and the worker's random delay are not part of this model. They are endpoint start-up and a handler that sleeps and then sends one reply.
