/**
 * The processing saga of the WorkGenerator project. It keeps the same state
 * as the NServiceBus.Batching saga under other names (`CompletedWork`,
 * `MarkWorkComplete`, `AllWorkCompleted`), adds `HasRemainingWork`, resets
 * the batch inside `SendWorkRequest`, and its saga data starts with an empty
 * progress.
 *
 * Every handler is proved to compute the reference step of `Coordinator`,
 * so the two variants behave alike.
 */
module GeneratorSaga {
  import opened Messages
  import opened Extensions
  import Coordinator

  class WorkProgress {
    var completedWork: seq<int>
    var batchPages: map<int, bool>

    constructor ()
      ensures Model() == Coordinator.EmptyProgress()
    {
      completedWork := [];
      batchPages := map[];
    }

    function Model(): Coordinator.Progress
      reads this
    {
      Coordinator.Progress(completedWork, batchPages)
    }

    /** Appends the work id, duplicates included, and sets its flag, inserting the key if absent. */
    method MarkWorkComplete(workNo: int)
      modifies this
      ensures Model() == Coordinator.MarkComplete(old(Model()), workNo)
      ensures |completedWork| == |old(completedWork)| + 1
    {
      completedWork := completedWork + [workNo];
      batchPages := batchPages[workNo := true];
    }

    /** All work is complete when the number of recorded completions equals the total. */
    predicate AllWorkCompleted(totalWorkCount: int)
      reads this
      ensures AllWorkCompleted(totalWorkCount) <==> |completedWork| == totalWorkCount
    {
      Coordinator.AllComplete(Model(), totalWorkCount)
    }

    /** The number of recorded completions, repeats included. */
    function ImportedPages(): (count: nat)
      reads this
      ensures count == |completedWork|
    {
      Coordinator.Imported(Model())
    }

    /** Every id of the current batch is flagged done; true for an empty batch. */
    predicate IsCurrentBatchCompleted()
      reads this
      ensures IsCurrentBatchCompleted() <==> forall p :: p in batchPages ==> batchPages[p]
      ensures batchPages == map[] ==> IsCurrentBatchCompleted()
    {
      Coordinator.BatchComplete(Model())
    }

    /**
     * Clears the batch and adds every page as not done. `Add` throws on a key
     * that is already present: then `ok` is false and the batch holds the
     * pages before the first repeated one.
     */
    method StartNewBatch(pages: seq<int>) returns (ok: bool)
      modifies this
      ensures completedWork == old(completedWork)
      ensures ok <==> Distinct(pages)
      ensures ok ==> Model() == Coordinator.StartBatch(old(Model()), pages)
      ensures !ok ==> exists i :: 0 <= i < |pages| && pages[i] in pages[..i] && Distinct(pages[..i])
                                 && batchPages == Coordinator.Pending(pages[..i])
    {
      batchPages := map[];
      var i := 0;
      while i < |pages|
        invariant 0 <= i <= |pages|
        invariant Distinct(pages[..i])
        invariant batchPages == Coordinator.Pending(pages[..i])
        invariant completedWork == old(completedWork)
      {
        if pages[i] in batchPages {
          return false;
        }
        assert pages[..i + 1] == pages[..i] + [pages[i]];
        batchPages := batchPages[pages[i] := false];
        i := i + 1;
      }
      assert pages[..i] == pages;
      return true;
    }

    /** The total minus the recorded completions is positive; then the work is not all complete. */
    predicate HasRemainingWork(totalWorkCount: int)
      reads this
      ensures HasRemainingWork(totalWorkCount) <==> |completedWork| < totalWorkCount
      ensures HasRemainingWork(totalWorkCount) ==> !AllWorkCompleted(totalWorkCount)
    {
      Coordinator.HasRemaining(Model(), totalWorkCount)
    }
  }

  /** The saga's persisted state, without `StartedAt`; construction already gives it an empty progress. */
  class ProcessingSagaData {
    var processId: Guid
    var workCount: int
    var progress: WorkProgress

    constructor ()
      ensures fresh(progress)
      ensures View() == Coordinator.Saga(0, 0, Coordinator.EmptyProgress())
    {
      processId := 0;
      workCount := 0;
      progress := new WorkProgress();
    }

    function View(): Coordinator.Saga
      reads this, progress
    {
      Coordinator.Saga(processId, workCount, progress.Model())
    }
  }

  class ProcessingSaga {
    const data: ProcessingSagaData
    var completed: bool

    constructor (data: ProcessingSagaData)
      ensures this.data == data && !completed
    {
      this.data := data;
      completed := false;
    }

    /** `Handle(StartProcessing)`: sets the work count, replaces the progress by a fresh one, imports. */
    method HandleStartProcessing(message: StartProcessing, context: MessageContext)
      modifies data, context
      ensures fresh(data.progress)
      ensures data.processId == old(data.processId)
      ensures var step := Coordinator.OnStart(old(data.processId), message);
        data.View() == step.saga && context.Sent == old(context.Sent) + step.sent
    {
      data.workCount := message.workCount;
      data.progress := new WorkProgress();
      ImportNextBatch(context);
    }

    /** `ImportNextBatch`: finish, or send the first 100-chunk of the remaining work. */
    method ImportNextBatch(context: MessageContext)
      modifies data.progress, context
      ensures var step := Coordinator.ImportNext(old(data.View()));
        data.View() == step.saga && context.Sent == old(context.Sent) + step.sent
    {
      if data.progress.AllWorkCompleted(data.workCount) {
        FinishWork(context);
      } else if data.progress.HasRemainingWork(data.workCount) {
        var importedPages := data.progress.ImportedPages();
        var remainingPages := data.workCount - importedPages;
        var range := Range(importedPages + 1, remainingPages);
        var nextBatch := Batch(range, 100)[0];
        Coordinator.NextBatchRange(data.View());
        SendWorkRequest(nextBatch, context);
      }
    }

    /** `Handle(WorkOrderCompleted)`: records the work, then finishes or imports the next batch. */
    method HandleWorkOrderCompleted(message: WorkOrderCompleted, context: MessageContext)
      modifies data.progress, context
      ensures var step := Coordinator.OnCompleted(old(data.View()), message);
        data.View() == step.saga && context.Sent == old(context.Sent) + step.sent
    {
      data.progress.MarkWorkComplete(message.workOrderNo);

      if data.progress.AllWorkCompleted(data.workCount) {
        FinishWork(context);
      } else if data.progress.IsCurrentBatchCompleted() {
        ImportNextBatch(context);
      }
    }

    /** `Handle(WorkAllDone)`: the saga is marked as complete (timing and logging left out). */
    method HandleWorkAllDone(message: WorkAllDone, context: MessageContext)
      modifies this
      ensures completed
    {
      completed := true;
    }

    /**
     * `SendWorkRequest`: resets the batch to `orders`, then sends one
     * `ProcessWorkOrder` per order, in list order. The log line reads the
     * first and last order, so the list must not be empty, and the reset
     * throws on a repeated order; its one caller passes a range.
     */
    method SendWorkRequest(orders: seq<int>, context: MessageContext)
      requires |orders| > 0 && Distinct(orders)
      modifies data.progress, context
      ensures data.progress.Model() == Coordinator.StartBatch(old(data.progress.Model()), orders)
      ensures context.Sent == old(context.Sent) + Coordinator.WorkOrders(data.processId, orders)
    {
      var ok := data.progress.StartNewBatch(orders);
      assert ok;

      for i := 0 to |orders|
        invariant data.progress.Model() == Coordinator.StartBatch(old(data.progress.Model()), orders)
        invariant context.Sent == old(context.Sent) + Coordinator.WorkOrders(data.processId, orders[..i])
      {
        assert orders[..i + 1] == orders[..i] + [orders[i]];
        Coordinator.WorkOrdersAppend(data.processId, orders[..i], [orders[i]]);
        context.Send(ProcessWorkOrder(data.processId, orders[i]));
      }
      assert orders[..|orders|] == orders;
    }

    /** `FinishWork`: sends `WorkAllDone` to itself only if all work is complete. */
    method FinishWork(context: MessageContext)
      modifies context
      ensures context.Sent == old(context.Sent) + Coordinator.Finish(data.View())
    {
      if data.progress.AllWorkCompleted(data.workCount) {
        context.SendLocal(WorkAllDone(data.processId));
      }
    }
  }
}
