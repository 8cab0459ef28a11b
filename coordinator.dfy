/**
 * The decision logic of the processing saga, on values.
 *
 * Both saga variants (NServiceBus.Batching and WorkGenerator) keep the same
 * state and take the same decisions; their imperative models are proved to
 * compute the functions below. A handler's effect is a `Step`: the saga's
 * new state and the messages it sent, in order.
 *
 * Completions are recorded as written in the source: appended to a list,
 * so a duplicate completion is counted again.
 */
module Coordinator {
  import opened Messages
  import opened Extensions

  /** `WorkProgress`: completed ids in arrival order, and the done flag of each id of the current batch. */
  datatype Progress = Progress(done: seq<int>, batch: map<int, bool>)

  /** `ProcessingSagaData` without its clock field. */
  datatype Saga = Saga(processId: Guid, workCount: int, progress: Progress)

  datatype Step = Step(saga: Saga, sent: seq<Outgoing>)

  /** A freshly constructed `WorkProgress`. */
  function EmptyProgress(): Progress {
    Progress([], map[])
  }

  /**
   * `MarkPageComplete` / `MarkWorkComplete`: the id is appended whether or
   * not it is already there, and its flag is set, inserting the key if the
   * current batch does not hold it.
   */
  function MarkComplete(p: Progress, id: int): Progress {
    Progress(p.done + [id], p.batch[id := true])
  }

  /**
   * Marking grows the list of completions by exactly one, keeping the old
   * list as its prefix and the id as its last element, and sets the id's
   * flag (inserting its key) without touching any other flag.
   */
  lemma MarkCompleteSpec(p: Progress, id: int)
    ensures var r := MarkComplete(p, id);
      && |r.done| == |p.done| + 1
      && r.done[..|p.done|] == p.done && r.done[|p.done|] == id
      && r.batch.Keys == p.batch.Keys + {id} && r.batch[id]
      && forall k :: k in p.batch && k != id ==> r.batch[k] == p.batch[k]
  {
    assert (p.done + [id])[..|p.done|] == p.done;
  }

  /** `IsAllComplete` / `AllWorkCompleted`: the number of recorded completions equals the total. */
  predicate AllComplete(p: Progress, total: int) {
    |p.done| == total
  }

  /** `ImportedPages`: the number of recorded completions. */
  function Imported(p: Progress): nat {
    |p.done|
  }

  /** `HasRemainingWork`: fewer completions are recorded than the total; never true together with `AllComplete`. */
  predicate HasRemaining(p: Progress, total: int)
    ensures HasRemaining(p, total) ==> !AllComplete(p, total)
  {
    total - Imported(p) > 0
  }

  /** `IsCurrentBatchCompleted`: every flag of the current batch is set (vacuously so for no batch). */
  predicate BatchComplete(p: Progress) {
    forall id :: id in p.batch ==> p.batch[id]
  }

  /** The batch map right after `StartNewBatch(pages)`: each page, not yet done. */
  function Pending(pages: seq<int>): map<int, bool> {
    map id | id in pages :: false
  }

  /** `StartNewBatch` on a list without repeated ids: the old batch is dropped, the completions kept. */
  function StartBatch(p: Progress, pages: seq<int>): Progress {
    p.(batch := Pending(pages))
  }

  /** One `ProcessWorkOrder` per id, in the order of `ids`, each carrying the saga's `ProcessId`. */
  function WorkOrders(processId: Guid, ids: seq<int>): (sent: seq<Outgoing>)
    ensures |sent| == |ids|
    ensures forall i :: 0 <= i < |ids| ==> sent[i] == ToWorker(ProcessWorkOrder(processId, ids[i]))
  {
    seq(|ids|, i requires 0 <= i < |ids| => ToWorker(ProcessWorkOrder(processId, ids[i])))
  }

  /** `StartPostWorkProcess` / `FinishWork`: `WorkAllDone` is sent only if all work is complete. */
  function Finish(s: Saga): seq<Outgoing> {
    if AllComplete(s.progress, s.workCount) then [ToSelf(WorkAllDone(s.processId))] else []
  }

  /**
   * The next batch: the ids after the completed count, at most 100 of them,
   * up to the work count. `NextBatchRange` proves it is the first chunk that
   * the handlers take from `BatchWithDefaultSize`.
   */
  function NextBatch(s: Saga): seq<int>
    requires HasRemaining(s.progress, s.workCount)
  {
    var imported := Imported(s.progress);
    Range(imported + 1, Min(DefaultBatchSize, s.workCount - imported))
  }

  /** `ImportNextBatch`: finish, dispatch the next batch, or do nothing. */
  function ImportNext(s: Saga): Step {
    if AllComplete(s.progress, s.workCount) then
      Step(s, Finish(s))
    else if HasRemaining(s.progress, s.workCount) then
      var ids := NextBatch(s);
      Step(s.(progress := StartBatch(s.progress, ids)), WorkOrders(s.processId, ids))
    else
      Step(s, [])
  }

  /** `Handle(StartProcessing)`: a fresh progress, the message's work count, then `ImportNextBatch`. */
  function OnStart(processId: Guid, message: StartProcessing): Step {
    ImportNext(Saga(processId, message.workCount, EmptyProgress()))
  }

  /** What `Handle(WorkOrderCompleted)` does once the completion has been recorded. */
  function AfterMark(s: Saga): Step {
    if AllComplete(s.progress, s.workCount) then Step(s, Finish(s))
    else if BatchComplete(s.progress) then ImportNext(s)
    else Step(s, [])
  }

  /** `Handle(WorkOrderCompleted)`. */
  function OnCompleted(s: Saga, message: WorkOrderCompleted): Step {
    AfterMark(s.(progress := MarkComplete(s.progress, message.workOrderNo)))
  }

  /** Outgoing messages that are `WorkAllDone`. */
  function DoneCount(sent: seq<Outgoing>): nat {
    if sent == [] then 0 else (if sent[0].ToSelf? then 1 else 0) + DoneCount(sent[1..])
  }

  // ---------------------------------------------------------------------------
  // Properties of single steps

  /** Recording the same completion twice counts it twice, though the flags end up as after once. */
  lemma MarkTwice(p: Progress, id: int)
    ensures MarkComplete(MarkComplete(p, id), id).batch == MarkComplete(p, id).batch
    ensures Imported(MarkComplete(MarkComplete(p, id), id)) == Imported(p) + 2
  {
  }

  lemma FlagUnset(p: Progress, id: int)
    requires id in p.batch && !p.batch[id]
    ensures !BatchComplete(p)
  {
  }

  /** A freshly started batch is complete only if it is empty; no batch at all is complete. */
  lemma PendingComplete(p: Progress, pages: seq<int>)
    ensures BatchComplete(StartBatch(p, pages)) <==> pages == []
    ensures BatchComplete(EmptyProgress())
  {
    if pages != [] {
      FlagUnset(StartBatch(p, pages), pages[0]);
    } else {
      assert StartBatch(p, pages).batch == map[];
    }
  }

  /** After `StartBatch` the keys are exactly the pages, all pending, and the completions are untouched. */
  lemma StartBatchKeys(p: Progress, pages: seq<int>)
    ensures StartBatch(p, pages).batch.Keys == set id | id in pages
    ensures forall id :: id in StartBatch(p, pages).batch ==> !StartBatch(p, pages).batch[id]
    ensures StartBatch(p, pages).done == p.done
  {
  }

  lemma WorkOrdersAppend(processId: Guid, a: seq<int>, b: seq<int>)
    ensures WorkOrders(processId, a + b) == WorkOrders(processId, a) + WorkOrders(processId, b)
  {
  }

  lemma WorkOrdersNoDone(processId: Guid, ids: seq<int>)
    ensures DoneCount(WorkOrders(processId, ids)) == 0
    decreases |ids|
  {
    if ids != [] {
      assert WorkOrders(processId, ids)[1..] == WorkOrders(processId, ids[1..]);
      WorkOrdersNoDone(processId, ids[1..]);
    }
  }

  lemma DoneCountAppend(a: seq<Outgoing>, b: seq<Outgoing>)
    ensures DoneCount(a + b) == DoneCount(a) + DoneCount(b)
    decreases |a|
  {
    if a != [] {
      assert (a + b)[1..] == a[1..] + b;
      DoneCountAppend(a[1..], b);
    } else {
      assert a + b == b;
    }
  }

  /**
   * The first chunk of 100 of the remaining ids is ids `imported + 1 ..
   * imported + min(100, remaining)`, in ascending order, none repeated.
   */
  lemma NextBatchRange(s: Saga)
    requires HasRemaining(s.progress, s.workCount)
    ensures var remaining := Range(Imported(s.progress) + 1, s.workCount - Imported(s.progress));
      BatchWithDefaultSize(remaining) != [] && BatchWithDefaultSize(remaining)[0] == NextBatch(s)
    ensures 0 < |NextBatch(s)| <= 100 && Distinct(NextBatch(s))
  {
    var imported := Imported(s.progress);
    BatchRangeFirst(imported + 1, s.workCount - imported, DefaultBatchSize);
    RangeDistinct(imported + 1, Min(100, s.workCount - imported));
  }

  /**
   * `ImportNextBatch` in its three cases: with everything complete it sends
   * the single `WorkAllDone`; with work remaining it replaces the batch by
   * the next ids and sends one work order for each, in ascending order;
   * otherwise (more completions than work) it changes and sends nothing.
   */
  lemma ImportNextCases(s: Saga)
    ensures AllComplete(s.progress, s.workCount) ==>
      ImportNext(s) == Step(s, [ToSelf(WorkAllDone(s.processId))])
    ensures HasRemaining(s.progress, s.workCount) ==>
      var ids := Range(Imported(s.progress) + 1, Min(100, s.workCount - Imported(s.progress)));
      ImportNext(s) == Step(s.(progress := Progress(s.progress.done, Pending(ids))), WorkOrders(s.processId, ids))
      && DoneCount(ImportNext(s).sent) == 0
    ensures !AllComplete(s.progress, s.workCount) && !HasRemaining(s.progress, s.workCount) ==>
      ImportNext(s) == Step(s, [])
  {
    if HasRemaining(s.progress, s.workCount) {
      WorkOrdersNoDone(s.processId, NextBatch(s));
    }
  }

  /**
   * `Handle(StartProcessing)`: with no work the single `WorkAllDone` and no
   * work order; with positive work the first batch `1 .. min(100, workCount)`;
   * with a negative work count nothing at all. Without positive work the
   * saga is left with a fresh, empty progress.
   */
  lemma OnStartCases(processId: Guid, message: StartProcessing)
    ensures OnStart(processId, message).saga.workCount == message.workCount
    ensures OnStart(processId, message).saga.progress.done == []
    ensures message.workCount == 0 ==>
      OnStart(processId, message).sent == [ToSelf(WorkAllDone(processId))]
    ensures message.workCount > 0 ==>
      var ids := Range(1, Min(100, message.workCount));
      OnStart(processId, message) == Step(Saga(processId, message.workCount, Progress([], Pending(ids))), WorkOrders(processId, ids))
    ensures message.workCount < 0 ==> OnStart(processId, message).sent == []
    ensures message.workCount <= 0 ==>
      OnStart(processId, message).saga == Saga(processId, message.workCount, EmptyProgress())
  {
    ImportNextCases(Saga(processId, message.workCount, EmptyProgress()));
  }

  /**
   * `Handle(WorkOrderCompleted)`: `WorkAllDone` is sent exactly when the
   * recorded completions reach the work count, and then it is the only
   * message; otherwise at most the next batch goes out.
   */
  lemma OnCompletedDone(s: Saga, message: WorkOrderCompleted)
    ensures var marked := MarkComplete(s.progress, message.workOrderNo);
      AllComplete(marked, s.workCount) ==>
        OnCompleted(s, message) == Step(s.(progress := marked), [ToSelf(WorkAllDone(s.processId))])
    ensures DoneCount(OnCompleted(s, message).sent) == 1 <==>
      AllComplete(OnCompleted(s, message).saga.progress, s.workCount)
    ensures DoneCount(OnCompleted(s, message).sent) <= 1
  {
    var marked := s.(progress := MarkComplete(s.progress, message.workOrderNo));
    ImportNextCases(marked);
  }
}
