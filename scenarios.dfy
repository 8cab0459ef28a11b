/**
 * Runs of the processing saga: a start followed by a sequence of completion
 * events, handled one at a time by `Coordinator.OnCompleted`.
 *
 * The main results are that a run in which every dispatched work order
 * completes exactly once, in any order within its batch, dispatches the
 * batches 1..100, 101..200, ... up to the work count and sends exactly one
 * `WorkAllDone`; and that, because completions are appended to a list, a
 * duplicate completion can end the process early and an over-count silences
 * the saga for good.
 */
module Scenarios {
  import opened Messages
  import opened Extensions
  import opened Coordinator

  /** Handling the completions of `ids` in order; `sent` collects every message of every step. */
  function Run(s: Saga, ids: seq<int>): Step
    decreases |ids|
  {
    if ids == [] then Step(s, [])
    else
      var first := OnCompleted(s, WorkOrderCompleted(s.processId, ids[0]));
      var rest := Run(first.saga, ids[1..]);
      Step(rest.saga, first.sent + rest.sent)
  }

  /** The work orders of each chunk in turn. */
  function Dispatches(processId: Guid, chunks: seq<seq<int>>): seq<Outgoing>
    decreases |chunks|
  {
    if chunks == [] then [] else WorkOrders(processId, chunks[0]) + Dispatches(processId, chunks[1..])
  }

  /** A batch map whose ids are those of `batch`, flagged done exactly when they are in `done`. */
  function Flags(batch: seq<int>, done: set<int>): map<int, bool> {
    map id | id in batch :: id in done
  }

  /** A batch map with every id of `batch` flagged done. */
  function AllFlagged(batch: seq<int>): map<int, bool> {
    map id | id in batch :: true
  }

  lemma OnCompletedKeeps(s: Saga, message: WorkOrderCompleted)
    ensures OnCompleted(s, message).saga.processId == s.processId
    ensures OnCompleted(s, message).saga.workCount == s.workCount
    ensures OnCompleted(s, message).saga.progress.done == s.progress.done + [message.workOrderNo]
  {
  }

  /** A run keeps the process id and work count, and appends every completion, repeated ones included. */
  lemma {:induction false} RunRecords(s: Saga, ids: seq<int>)
    ensures Run(s, ids).saga.processId == s.processId
    ensures Run(s, ids).saga.workCount == s.workCount
    ensures Run(s, ids).saga.progress.done == s.progress.done + ids
    decreases |ids|
  {
    if ids == [] {
      assert s.progress.done + ids == s.progress.done;
    } else {
      var first := OnCompleted(s, WorkOrderCompleted(s.processId, ids[0]));
      OnCompletedKeeps(s, WorkOrderCompleted(s.processId, ids[0]));
      RunRecords(first.saga, ids[1..]);
      assert s.progress.done + ids == s.progress.done + [ids[0]] + ids[1..];
    }
  }

  /** Handling `a` then `b` is handling `a + b`. */
  lemma {:induction false} RunAppend(s: Saga, a: seq<int>, b: seq<int>)
    ensures Run(s, a + b).saga == Run(Run(s, a).saga, b).saga
    ensures Run(s, a + b).sent == Run(s, a).sent + Run(Run(s, a).saga, b).sent
    decreases |a|
  {
    if a == [] {
      assert a + b == b;
    } else {
      assert (a + b)[0] == a[0];
      assert (a + b)[1..] == a[1..] + b;
      var first := OnCompleted(s, WorkOrderCompleted(s.processId, a[0]));
      RunAppend(first.saga, a[1..], b);
    }
  }

  lemma DispatchesFlat(processId: Guid, chunks: seq<seq<int>>)
    ensures Dispatches(processId, chunks) == WorkOrders(processId, Flatten(chunks))
    decreases |chunks|
  {
    if chunks != [] {
      DispatchesFlat(processId, chunks[1..]);
      WorkOrdersAppend(processId, chunks[0], Flatten(chunks[1..]));
    }
  }

  lemma DistinctCons(s: seq<int>)
    requires s != []
    ensures Distinct(s) <==> s[0] !in s[1..] && Distinct(s[1..])
  {
    if s[0] in s[1..] {
      var j :| 0 <= j < |s[1..]| && s[1..][j] == s[0];
      assert s[0] == s[j + 1];
    }
    if !Distinct(s[1..]) {
      var i, j :| 0 <= i < j < |s[1..]| && s[1..][i] == s[1..][j];
      assert s[i + 1] == s[j + 1];
    }
  }

  /** A sequence has no repeated element exactly when no element occurs twice in its multiset. */
  lemma {:induction false} DistinctMultiplicity(s: seq<int>)
    ensures Distinct(s) <==> forall x :: multiset(s)[x] <= 1
    decreases |s|
  {
    if s != [] {
      DistinctMultiplicity(s[1..]);
      DistinctCons(s);
      assert s == [s[0]] + s[1..];
      assert multiset(s) == multiset{s[0]} + multiset(s[1..]);
      if Distinct(s) {
        assert multiset(s[1..])[s[0]] == 0;
        forall x ensures multiset(s)[x] <= 1 {
          assert multiset(s)[x] == (if x == s[0] then 1 else 0) + multiset(s[1..])[x];
        }
      } else if s[0] in s[1..] {
        assert s[0] in multiset(s[1..]);
        assert multiset(s)[s[0]] >= 2;
        Repeated(s, s[0]);
      } else {
        var x :| multiset(s[1..])[x] > 1;
        assert multiset(s)[x] >= multiset(s[1..])[x];
        Repeated(s, x);
      }
    }
  }

  lemma Repeated(s: seq<int>, x: int)
    requires multiset(s)[x] > 1
    ensures !(forall y :: multiset(s)[y] <= 1)
  {
  }

  /** A permutation of a list without repetitions has none either. */
  lemma PermutationDistinct(e: seq<int>, batch: seq<int>)
    requires Distinct(batch) && multiset(e) == multiset(batch)
    ensures Distinct(e)
  {
    DistinctMultiplicity(batch);
    DistinctMultiplicity(e);
  }

  lemma AllFlaggedComplete(p: Progress, batch: seq<int>)
    requires p.batch == AllFlagged(batch)
    ensures BatchComplete(p)
  {
  }

  /** Marking an id of the batch flags it, and leaves every other flag as it was. */
  lemma MarkFlags(p: Progress, batch: seq<int>, done: set<int>, x: int)
    requires p.batch == Flags(batch, done) && x in batch
    ensures MarkComplete(p, x).batch == Flags(batch, done + {x})
  {
  }

  /** A completion that leaves the work incomplete and a flag of the batch unset sends nothing. */
  lemma QuietStep(s: Saga, x: int, y: int)
    requires |s.progress.done| + 1 < s.workCount
    requires y in MarkComplete(s.progress, x).batch && !MarkComplete(s.progress, x).batch[y]
    ensures OnCompleted(s, WorkOrderCompleted(s.processId, x)) == Step(s.(progress := MarkComplete(s.progress, x)), [])
  {
    FlagUnset(MarkComplete(s.progress, x), y);
  }

  /** `Run` of a non-empty list: the first completion, then the rest. */
  lemma RunCons(s: Saga, e: seq<int>)
    requires e != []
    ensures Run(s, e).sent == OnCompleted(s, WorkOrderCompleted(s.processId, e[0])).sent
                              + Run(OnCompleted(s, WorkOrderCompleted(s.processId, e[0])).saga, e[1..]).sent
    ensures Run(s, e).saga == Run(OnCompleted(s, WorkOrderCompleted(s.processId, e[0])).saga, e[1..]).saga
  {
  }

  /** The last pending id of the batch: its completion finds every flag set. */
  lemma RoundLast(s: Saga, batch: seq<int>, done: set<int>, x: int)
    requires s.progress.batch == Flags(batch, done) && x in batch
    requires forall id :: id in batch ==> id in done || id == x
    ensures Run(s, [x]) == AfterMark(s.(progress := Progress(s.progress.done + [x], AllFlagged(batch))))
  {
    MarkFlags(s.progress, batch, done, x);
    assert Flags(batch, done + {x}) == AllFlagged(batch) by {
      assert forall id :: id in batch ==> id in done + {x};
    }
    RunCons(s, [x]);
    assert Run(OnCompleted(s, WorkOrderCompleted(s.processId, x)).saga, []).sent == [];
  }

  /** A completion that sends nothing leaves the rest of the run to the marked state. */
  lemma QuietRun(s: Saga, e: seq<int>)
    requires |e| > 1 && |s.progress.done| + 1 < s.workCount
    requires e[1] in MarkComplete(s.progress, e[0]).batch && !MarkComplete(s.progress, e[0]).batch[e[1]]
    ensures Run(s, e) == Run(s.(progress := MarkComplete(s.progress, e[0])), e[1..])
  {
    QuietStep(s, e[0], e[1]);
    RunCons(s, e);
  }

  /** The bookkeeping of one quiet step of `RoundFrom`: the rest of the batch after the first id. */
  lemma RoundPre(s: Saga, batch: seq<int>, done: set<int>, e: seq<int>)
    requires s.progress.batch == Flags(batch, done)
    requires |e| > 1 && Distinct(e)
    requires forall x :: x in e ==> x in batch && x !in done
    requires forall x :: x in batch ==> x in done || x in e
    requires |s.progress.done| + |e| <= s.workCount
    ensures var marked := s.(progress := MarkComplete(s.progress, e[0]));
      && marked.progress.batch == Flags(batch, done + {e[0]})
      && e[1..] != [] && Distinct(e[1..])
      && (forall x :: x in e[1..] ==> x in batch && x !in done + {e[0]})
      && (forall x :: x in batch ==> x in done + {e[0]} || x in e[1..])
      && |marked.progress.done| + |e[1..]| <= marked.workCount
  {
    MarkFlags(s.progress, batch, done, e[0]);
    DistinctCons(e);
    assert forall x :: x in e ==> x == e[0] || x in e[1..];
  }

  lemma AppendShift(a: seq<int>, e: seq<int>)
    requires e != []
    ensures a + e == (a + [e[0]]) + e[1..]
  {
    assert e == [e[0]] + e[1..];
  }

  /** A quiet first step followed by a round over the rest is a round over the whole of `e`. */
  lemma RoundCompose(s: Saga, batch: seq<int>, done: set<int>, e: seq<int>)
    requires s.progress.batch == Flags(batch, done)
    requires |e| > 1 && e[1] in batch && e[1] != e[0] && e[1] !in done
    requires |s.progress.done| + |e| <= s.workCount
    requires var marked := s.(progress := MarkComplete(s.progress, e[0]));
      Run(marked, e[1..]) == AfterMark(marked.(progress := Progress(marked.progress.done + e[1..], AllFlagged(batch))))
    ensures Run(s, e) == AfterMark(s.(progress := Progress(s.progress.done + e, AllFlagged(batch))))
  {
    var marked := s.(progress := MarkComplete(s.progress, e[0]));
    assert marked.progress.batch[e[1]] == (e[1] in done);
    QuietRun(s, e);
    AppendShift(s.progress.done, e);
    assert s.(progress := Progress(s.progress.done + e, AllFlagged(batch)))
        == marked.(progress := Progress(marked.progress.done + e[1..], AllFlagged(batch)));
  }

  /**
   * Completing the rest `e` of the current batch, each id once: every event
   * but the last sends nothing, and the last acts on the fully flagged batch.
   */
  lemma {:induction false} RoundFrom(s: Saga, batch: seq<int>, done: set<int>, e: seq<int>)
    requires s.progress.batch == Flags(batch, done)
    requires e != [] && Distinct(e)
    requires forall x :: x in e ==> x in batch && x !in done
    requires forall x :: x in batch ==> x in done || x in e
    requires |s.progress.done| + |e| <= s.workCount
    ensures Run(s, e) == AfterMark(s.(progress := Progress(s.progress.done + e, AllFlagged(batch))))
    decreases |e|
  {
    var x := e[0];
    if |e| == 1 {
      assert e == [x];
      RoundLast(s, batch, done, x);
    } else {
      RoundPre(s, batch, done, e);
      RoundFrom(s.(progress := MarkComplete(s.progress, x)), batch, done + {x}, e[1..]);
      RoundCompose(s, batch, done, e);
    }
  }

  /** Completing a freshly dispatched batch exactly once, in any order (a permutation of the batch). */
  lemma Round(s: Saga, batch: seq<int>, e: seq<int>)
    requires batch != [] && Distinct(batch) && s.progress.batch == Pending(batch)
    requires multiset(e) == multiset(batch)
    requires |s.progress.done| + |batch| <= s.workCount
    ensures Run(s, e) == AfterMark(s.(progress := Progress(s.progress.done + e, AllFlagged(batch))))
  {
    PermutationDistinct(e, batch);
    assert |e| == |multiset(e)| == |batch|;
    assert forall x :: x in e <==> x in multiset(e);
    assert Pending(batch) == Flags(batch, {});
    RoundFrom(s, batch, {}, e);
  }

  /** The chunks of 100 of the work that is not yet recorded as complete. */
  function RemainingChunks(s: Saga): seq<seq<int>>
    requires |s.progress.done| <= s.workCount
  {
    var k := |s.progress.done|;
    BatchWithDefaultSize(Range(k + 1, s.workCount - k))
  }

  /** `events[i]` completes the ids of `chunks[i]` exactly once each, in any order. */
  predicate CompletesEach(events: seq<seq<int>>, chunks: seq<seq<int>>) {
    |events| == |chunks| && forall i :: 0 <= i < |events| ==> multiset(events[i]) == multiset(chunks[i])
  }

  /** Completing the first remaining chunk exactly once leaves the saga on a fully flagged batch. */
  lemma RoundEnd(s: Saga, e: seq<int>) returns (last: Saga)
    requires |s.progress.done| < s.workCount
    requires RemainingChunks(s) != [] && s.progress.batch == Pending(RemainingChunks(s)[0])
    requires multiset(e) == multiset(RemainingChunks(s)[0])
    ensures Run(s, e) == AfterMark(last)
    ensures last.processId == s.processId && last.workCount == s.workCount
    ensures |last.progress.done| == |s.progress.done| + Min(100, s.workCount - |s.progress.done|)
    ensures BatchComplete(last.progress)
  {
    var k := |s.progress.done|;
    var r := s.workCount - k;
    var batch := RemainingChunks(s)[0];
    BatchRangeFirst(k + 1, r, 100);
    RangeDistinct(k + 1, Min(100, r));
    Round(s, batch, e);
    last := s.(progress := Progress(s.progress.done + e, AllFlagged(batch)));
    assert |e| == |multiset(e)| == |batch|;
    AllFlaggedComplete(last.progress, batch);
  }

  /** A hundred more completions leave the remaining chunks but the first, and the next batch is their first. */
  lemma RemainingAfter(s: Saga, last: Saga)
    requires |s.progress.done| + 100 < s.workCount
    requires last.workCount == s.workCount && |last.progress.done| == |s.progress.done| + 100
    ensures HasRemaining(last.progress, last.workCount)
    ensures |RemainingChunks(s)| > 1 && RemainingChunks(last) == RemainingChunks(s)[1..]
    ensures RemainingChunks(s)[1] == NextBatch(last)
  {
    var k := |s.progress.done|;
    var r := s.workCount - k;
    BatchRangeUnfold(k + 1, r, 100);
    BatchRangeFirst(k + 101, r - 100, 100);
  }

  /**
   * Completing the first remaining chunk exactly once: on the last chunk the
   * saga sends the one `WorkAllDone`; otherwise it sends the work orders of
   * the next chunk and waits on it.
   */
  lemma RoundOutcome(s: Saga, e: seq<int>)
    requires |s.progress.done| < s.workCount
    requires RemainingChunks(s) != [] && s.progress.batch == Pending(RemainingChunks(s)[0])
    requires multiset(e) == multiset(RemainingChunks(s)[0])
    ensures |RemainingChunks(s)| == 1 ==> Run(s, e).sent == [ToSelf(WorkAllDone(s.processId))]
    ensures |RemainingChunks(s)| > 1 ==>
      var next := Run(s, e).saga;
      && next.processId == s.processId
      && |next.progress.done| < next.workCount
      && RemainingChunks(next) == RemainingChunks(s)[1..]
      && next.progress.batch == Pending(RemainingChunks(s)[1])
      && Run(s, e).sent == WorkOrders(s.processId, RemainingChunks(s)[1])
  {
    var k := |s.progress.done|;
    var last := RoundEnd(s, e);
    if k + 100 < s.workCount {
      RemainingAfter(s, last);
      var ids := NextBatch(last);
      assert Run(s, e) == Step(last.(progress := StartBatch(last.progress, ids)), WorkOrders(s.processId, ids));
    } else {
      BatchRangeFirst(k + 1, s.workCount - k, 100);
      assert |RemainingChunks(s)| == 1;
      assert AllComplete(last.progress, last.workCount);
    }
  }

  /**
   * From a saga waiting on the first of its remaining chunks, completing the
   * chunks in turn dispatches each later chunk and then the one `WorkAllDone`.
   */
  lemma {:induction false} RunChunks(s: Saga, events: seq<seq<int>>)
    requires |s.progress.done| < s.workCount
    requires RemainingChunks(s) != [] && s.progress.batch == Pending(RemainingChunks(s)[0])
    requires CompletesEach(events, RemainingChunks(s))
    ensures Run(s, Flatten(events)).sent
         == Dispatches(s.processId, RemainingChunks(s)[1..]) + [ToSelf(WorkAllDone(s.processId))]
    decreases |events|
  {
    var chunks := RemainingChunks(s);
    if |chunks| == 1 {
      RoundOutcome(s, events[0]);
      RunAppend(s, events[0], Flatten(events[1..]));
      assert events[1..] == [];
    } else {
      var next := NextRound(s, events);
      RunChunks(next, events[1..]);
      ChunksCompose(s, events, chunks, next);
    }
  }

  /** The first chunk's events, then the rest: the next chunk's work orders come first. */
  lemma ChunksCompose(s: Saga, events: seq<seq<int>>, chunks: seq<seq<int>>, next: Saga)
    requires events != [] && |chunks| > 1
    requires next == Run(s, events[0]).saga && next.processId == s.processId
    requires Run(s, events[0]).sent == WorkOrders(s.processId, chunks[1])
    requires Run(next, Flatten(events[1..])).sent == Dispatches(s.processId, chunks[2..]) + [ToSelf(WorkAllDone(s.processId))]
    ensures Run(s, Flatten(events)).sent == Dispatches(s.processId, chunks[1..]) + [ToSelf(WorkAllDone(s.processId))]
  {
    assert Flatten(events) == events[0] + Flatten(events[1..]);
    RunAppend(s, events[0], Flatten(events[1..]));
    DispatchesThenDone(s.processId, chunks, Run(s, events[0]).sent, Run(next, Flatten(events[1..])).sent);
  }

  lemma DispatchesThenDone(processId: Guid, chunks: seq<seq<int>>, first: seq<Outgoing>, rest: seq<Outgoing>)
    requires |chunks| > 1
    requires first == WorkOrders(processId, chunks[1])
    requires rest == Dispatches(processId, chunks[2..]) + [ToSelf(WorkAllDone(processId))]
    ensures first + rest == Dispatches(processId, chunks[1..]) + [ToSelf(WorkAllDone(processId))]
  {
    DispatchesCons(processId, chunks[1..]);
    assert chunks[1..][0] == chunks[1] && chunks[1..][1..] == chunks[2..];
  }

  /** After the first chunk of several, the saga waits on the next chunk with the rest of the events ahead. */
  lemma NextRound(s: Saga, events: seq<seq<int>>) returns (next: Saga)
    requires |s.progress.done| < s.workCount
    requires RemainingChunks(s) != [] && s.progress.batch == Pending(RemainingChunks(s)[0])
    requires CompletesEach(events, RemainingChunks(s)) && |RemainingChunks(s)| > 1
    ensures next == Run(s, events[0]).saga && next.processId == s.processId
    ensures Run(s, events[0]).sent == WorkOrders(s.processId, RemainingChunks(s)[1])
    ensures |next.progress.done| < next.workCount
    ensures RemainingChunks(next) == RemainingChunks(s)[1..]
    ensures RemainingChunks(next)[1..] == RemainingChunks(s)[2..]
    ensures RemainingChunks(next) != [] && next.progress.batch == Pending(RemainingChunks(next)[0])
    ensures CompletesEach(events[1..], RemainingChunks(next))
  {
    RoundOutcome(s, events[0]);
    next := Run(s, events[0]).saga;
    CompletesEachTail(events, RemainingChunks(s));
  }

  lemma CompletesEachTail(events: seq<seq<int>>, chunks: seq<seq<int>>)
    requires CompletesEach(events, chunks) && events != []
    ensures CompletesEach(events[1..], chunks[1..])
  {
    forall i | 0 <= i < |events[1..]|
      ensures multiset(events[1..][i]) == multiset(chunks[1..][i])
    {
      assert events[1..][i] == events[i + 1] && chunks[1..][i] == chunks[i + 1];
    }
  }

  lemma DispatchesCons(processId: Guid, chunks: seq<seq<int>>)
    requires chunks != []
    ensures Dispatches(processId, chunks) == WorkOrders(processId, chunks[0]) + Dispatches(processId, chunks[1..])
  {
  }

  /**
   * The run the design intends: start with `workCount >= 0` work orders, then
   * complete the ids of each dispatched chunk exactly once before the next.
   * The saga sends the work orders of the chunks 1..100, 101..200, ... in
   * order, hence every id of `1 .. workCount` once in ascending order, and
   * then a single `WorkAllDone`.
   */
  lemma EndToEnd(processId: Guid, message: StartProcessing, events: seq<seq<int>>)
    requires message.workCount >= 0
    requires CompletesEach(events, BatchWithDefaultSize(Range(1, message.workCount)))
    ensures var start := OnStart(processId, message);
      start.sent + Run(start.saga, Flatten(events)).sent
        == Dispatches(processId, BatchWithDefaultSize(Range(1, message.workCount))) + [ToSelf(WorkAllDone(processId))]
    ensures var start := OnStart(processId, message);
      start.sent + Run(start.saga, Flatten(events)).sent
        == WorkOrders(processId, Range(1, message.workCount)) + [ToSelf(WorkAllDone(processId))]
    ensures var start := OnStart(processId, message);
      DoneCount(start.sent + Run(start.saga, Flatten(events)).sent) == 1
  {
    var wc := message.workCount;
    var chunks := BatchWithDefaultSize(Range(1, wc));
    var start := OnStart(processId, message);
    OnStartCases(processId, message);
    if wc == 0 {
      assert events == [] && Flatten(events) == [];
      assert start.sent + Run(start.saga, Flatten(events)).sent == [ToSelf(WorkAllDone(processId))];
    } else {
      BatchRangeFirst(1, wc, 100);
      assert RemainingChunks(start.saga) == chunks;
      RunChunks(start.saga, events);
      assert start.sent == WorkOrders(processId, chunks[0]);
    }
    DispatchesFlat(processId, chunks);
    var all := WorkOrders(processId, Range(1, wc));
    WorkOrdersNoDone(processId, Range(1, wc));
    DoneCountAppend(all, [ToSelf(WorkAllDone(processId))]);
  }

  /**
   * As written, a duplicate completion counts: with two work orders,
   * completing order 1 twice sends `WorkAllDone` although order 2 has not
   * completed, and the late completion of order 2 then sends nothing.
   */
  lemma DuplicateFinishesEarly(processId: Guid)
    ensures var start := OnStart(processId, StartProcessing(processId, 2));
      start.sent == WorkOrders(processId, [1, 2])
      && Run(start.saga, [1, 1]).sent == [ToSelf(WorkAllDone(processId))]
      && 2 !in Run(start.saga, [1, 1]).saga.progress.done
      && Run(start.saga, [1, 1, 2]).sent == [ToSelf(WorkAllDone(processId))]
      && Imported(Run(start.saga, [1, 1, 2]).saga.progress) == 3
  {
    var start := OnStart(processId, StartProcessing(processId, 2));
    OnStartCases(processId, StartProcessing(processId, 2));
    assert Range(1, Min(100, 2)) == [1, 2];
    var s0 := start.saga;
    assert s0.progress.batch == map[1 := false, 2 := false];
    var s1 := OnCompleted(s0, WorkOrderCompleted(processId, 1));
    FlagUnset(MarkComplete(s0.progress, 1), 2);
    assert s1 == Step(s0.(progress := MarkComplete(s0.progress, 1)), []);
    var s2 := OnCompleted(s1.saga, WorkOrderCompleted(processId, 1));
    assert s2.sent == [ToSelf(WorkAllDone(processId))];
    var s3 := OnCompleted(s2.saga, WorkOrderCompleted(processId, 2));
    ImportNextCases(s2.saga.(progress := MarkComplete(s2.saga.progress, 2)));
    assert s3.sent == [];
    assert [1, 1][1..] == [1] && [1][1..] == [];
    assert [1, 1, 2][1..] == [1, 2] && [1, 2][1..] == [2] && [2][1..] == [];
    RunRecords(s0, [1, 1]);
    RunRecords(s0, [1, 1, 2]);
  }

  /**
   * Every completion adds exactly one to the count, so a run that takes the
   * count from below the work count to at least the work count passes the
   * completion that reaches it, and that one sends `WorkAllDone`. An
   * over-count is only reached after `WorkAllDone` has gone out.
   */
  lemma {:induction false} ReachingTotalSendsDone(s: Saga, ids: seq<int>)
    requires |s.progress.done| < s.workCount <= |s.progress.done| + |ids|
    ensures DoneCount(Run(s, ids).sent) >= 1
    decreases |ids|
  {
    var message := WorkOrderCompleted(s.processId, ids[0]);
    var first := OnCompleted(s, message);
    OnCompletedKeeps(s, message);
    RunCons(s, ids);
    DoneCountAppend(first.sent, Run(first.saga, ids[1..]).sent);
    if |s.progress.done| + 1 == s.workCount {
      OnCompletedDone(s, message);
    } else {
      ReachingTotalSendsDone(first.saga, ids[1..]);
    }
  }

  /**
   * Once more completions are recorded than there is work, `IsAllComplete`
   * never holds again and no further completion sends anything.
   */
  lemma {:induction false} OvercountIsFinal(s: Saga, ids: seq<int>)
    requires Imported(s.progress) > s.workCount
    ensures Run(s, ids).sent == []
    ensures !AllComplete(Run(s, ids).saga.progress, s.workCount)
    decreases |ids|
  {
    RunRecords(s, ids);
    if ids != [] {
      var message := WorkOrderCompleted(s.processId, ids[0]);
      var marked := s.(progress := MarkComplete(s.progress, ids[0]));
      ImportNextCases(marked);
      assert OnCompleted(s, message) == Step(marked, []);
      OvercountIsFinal(marked, ids[1..]);
    }
  }
}
