/**
 * The processing saga of the NServiceBus.Batching project, as the objects
 * the handlers update: a `WorkProgress` with its list of completed pages and
 * its map of the current batch, the saga data that holds it, and the saga
 * whose handlers mutate both and send through the handler context.
 *
 * Every handler is proved to compute the reference step of `Coordinator`.
 */
module BatchingSaga {
  import opened Messages
  import opened Extensions
  import Coordinator

  class WorkProgress {
    var donePages: seq<int>
    var batchPages: map<int, bool>

    constructor ()
      ensures Model() == Coordinator.EmptyProgress()
    {
      donePages := [];
      batchPages := map[];
    }

    function Model(): Coordinator.Progress
      reads this
    {
      Coordinator.Progress(donePages, batchPages)
    }

    /** Appends the page, duplicates included, and sets its flag, inserting the key if absent. */
    method MarkPageComplete(pageNo: int)
      modifies this
      ensures Model() == Coordinator.MarkComplete(old(Model()), pageNo)
      ensures |donePages| == |old(donePages)| + 1
    {
      donePages := donePages + [pageNo];
      batchPages := batchPages[pageNo := true];
    }

    /** All pages are complete when the number of recorded pages equals the total. */
    predicate IsAllComplete(totalPageCount: int)
      reads this
      ensures IsAllComplete(totalPageCount) <==> |donePages| == totalPageCount
    {
      Coordinator.AllComplete(Model(), totalPageCount)
    }

    /** The number of recorded pages, repeats included. */
    function ImportedPages(): (count: nat)
      reads this
      ensures count == |donePages|
    {
      Coordinator.Imported(Model())
    }

    /** Every page of the current batch is flagged done; true for an empty batch. */
    predicate IsCurrentBatchCompleted()
      reads this
      ensures IsCurrentBatchCompleted() <==> forall p :: p in batchPages ==> batchPages[p]
      ensures batchPages == map[] ==> IsCurrentBatchCompleted()
    {
      Coordinator.BatchComplete(Model())
    }

    /**
     * Clears the batch and adds every page as not done. `Add` throws on a key
     * that is already present: then `ok` is false and the batch holds the
     * pages before the first repeated one.
     */
    method StartNewBatch(pages: seq<int>) returns (ok: bool)
      modifies this
      ensures donePages == old(donePages)
      ensures ok <==> Distinct(pages)
      ensures ok ==> Model() == Coordinator.StartBatch(old(Model()), pages)
      ensures !ok ==> exists i :: 0 <= i < |pages| && pages[i] in pages[..i] && Distinct(pages[..i])
                                 && batchPages == Coordinator.Pending(pages[..i])
    {
      batchPages := map[];
      var i := 0;
      while i < |pages|
        invariant 0 <= i <= |pages|
        invariant Distinct(pages[..i])
        invariant batchPages == Coordinator.Pending(pages[..i])
        invariant donePages == old(donePages)
      {
        if pages[i] in batchPages {
          return false;
        }
        assert pages[..i + 1] == pages[..i] + [pages[i]];
        batchPages := batchPages[pages[i] := false];
        i := i + 1;
      }
      assert pages[..i] == pages;
      return true;
    }
  }

  /** The saga's persisted state. `StartedAt` is left out; `Progress` is null until the saga starts. */
  class ProcessingSagaData {
    var processId: Guid
    var workCount: int
    var progress: WorkProgress?

    function View(): Coordinator.Saga
      reads this, progress
      requires progress != null
    {
      Coordinator.Saga(processId, workCount, progress.Model())
    }
  }

  class ProcessingSaga {
    const data: ProcessingSagaData
    var completed: bool

    constructor (data: ProcessingSagaData)
      ensures this.data == data && !completed
    {
      this.data := data;
      completed := false;
    }

    /** `Handle(StartProcessing)`: sets the work count, replaces the progress by a fresh one, imports. */
    method HandleStartProcessing(message: StartProcessing, context: MessageContext)
      modifies data, context
      ensures data.progress != null && fresh(data.progress)
      ensures data.processId == old(data.processId)
      ensures var step := Coordinator.OnStart(old(data.processId), message);
        data.View() == step.saga && context.Sent == old(context.Sent) + step.sent
    {
      data.workCount := message.workCount;
      data.progress := new WorkProgress();
      ImportNextBatch(context);
    }

    /** `ImportNextBatch`: finish, or start and send the next batch of at most 100 pages. */
    method ImportNextBatch(context: MessageContext)
      requires data.progress != null
      modifies data.progress, context
      ensures var step := Coordinator.ImportNext(old(data.View()));
        data.View() == step.saga && context.Sent == old(context.Sent) + step.sent
    {
      var importedPages := data.progress.ImportedPages();
      var remainingPages := data.workCount - importedPages;

      if data.progress.IsAllComplete(data.workCount) {
        StartPostWorkProcess(context);
      } else if remainingPages > 0 {
        Coordinator.NextBatchRange(data.View());
        var range := Range(importedPages + 1, remainingPages);
        var nextBatch := BatchWithDefaultSize(range)[0];
        var ok := data.progress.StartNewBatch(nextBatch);
        assert ok;
        StartWork(nextBatch, context);
      }
    }

    /** `Handle(WorkOrderCompleted)`: records the page, then finishes or imports the next batch. */
    method HandleWorkOrderCompleted(message: WorkOrderCompleted, context: MessageContext)
      requires data.progress != null
      modifies data.progress, context
      ensures var step := Coordinator.OnCompleted(old(data.View()), message);
        data.View() == step.saga && context.Sent == old(context.Sent) + step.sent
    {
      data.progress.MarkPageComplete(message.workOrderNo);

      if data.progress.IsAllComplete(data.workCount) {
        StartPostWorkProcess(context);
      } else if data.progress.IsCurrentBatchCompleted() {
        ImportNextBatch(context);
      }
    }

    /** `Handle(WorkAllDone)`: the saga is marked as complete (timing and logging left out). */
    method HandleWorkAllDone(message: WorkAllDone, context: MessageContext)
      modifies this
      ensures completed
    {
      completed := true;
    }

    /**
     * `StartWork`: one `ProcessWorkOrder` per order, in list order. The log
     * line reads the first and last order, so the list must not be empty.
     */
    method StartWork(orders: seq<int>, context: MessageContext)
      requires |orders| > 0
      modifies context
      ensures context.Sent == old(context.Sent) + Coordinator.WorkOrders(data.processId, orders)
    {
      for i := 0 to |orders|
        invariant context.Sent == old(context.Sent) + Coordinator.WorkOrders(data.processId, orders[..i])
      {
        assert orders[..i + 1] == orders[..i] + [orders[i]];
        Coordinator.WorkOrdersAppend(data.processId, orders[..i], [orders[i]]);
        context.Send(ProcessWorkOrder(data.processId, orders[i]));
      }
      assert orders[..|orders|] == orders;
    }

    /** `StartPostWorkProcess`: sends `WorkAllDone` to itself only if all pages are complete. */
    method StartPostWorkProcess(context: MessageContext)
      requires data.progress != null
      modifies context
      ensures context.Sent == old(context.Sent) + Coordinator.Finish(data.View())
    {
      if data.progress.IsAllComplete(data.workCount) {
        context.SendLocal(WorkAllDone(data.processId));
      }
    }
  }
}
