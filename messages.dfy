/**
 * The messages exchanged by the batching saga and its workers, and the
 * outgoing side of a handler's message context.
 *
 * The transport is not modelled: `Send` and `SendLocal` only append to the
 * context's outbox, in the order the handler issues them.
 */
module Messages {

  /** A saga's correlation key. A .NET `Guid` is only compared for equality here, so an integer stands for it. */
  type Guid = int

  /** Starts one process of `workCount` work orders. */
  datatype StartProcessing = StartProcessing(processId: Guid, workCount: int)

  /** Asks a worker to process one work order. */
  datatype ProcessWorkOrder = ProcessWorkOrder(processId: Guid, workOrder: int)

  /** A worker reports that one work order is done. */
  datatype WorkOrderCompleted = WorkOrderCompleted(processId: Guid, workOrderNo: int)

  /** The saga tells itself that the whole process is done. */
  datatype WorkAllDone = WorkAllDone(processId: Guid)

  /** One entry of the outbox: a routed `Send` to the workers, or a `SendLocal` back to the saga. */
  datatype Outgoing = ToWorker(order: ProcessWorkOrder) | ToSelf(done: WorkAllDone)

  /** The outgoing half of a message handler context. */
  class MessageContext {
    var Sent: seq<Outgoing>

    constructor ()
      ensures Sent == []
    {
      Sent := [];
    }

    method Send(message: ProcessWorkOrder)
      modifies this
      ensures Sent == old(Sent) + [ToWorker(message)]
    {
      Sent := Sent + [ToWorker(message)];
    }

    method SendLocal(message: WorkAllDone)
      modifies this
      ensures Sent == old(Sent) + [ToSelf(message)]
    {
      Sent := Sent + [ToSelf(message)];
    }
  }
}
