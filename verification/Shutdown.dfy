/** Close ends: once the queue is closed the client can always go on until all workers have
    stopped, and has only so many steps left of its own. */
module Shutdown {
  import Q = QueueSteps
  import QS = QueueSafety
  import opened Seqs
  import opened Submissions
  import opened Packing
  import opened DeliveryLoops
  import opened Pipeline
  import opened PipelineSafety
  import opened Refinement
  import opened Linger
  import opened WorkerSafety
  import opened Settlement

  /** The batcher is inside the queue exactly while it waits for an answer. */
  ghost predicate CallInv(c: Client) {
    Waits(c.b.pc) ==> !c.q.consumer.Outside?
  }

  ghost predicate RunInv(c: Client) {
    ClientInv(c) && NotEarly(c) && CallInv(c)
  }

  lemma StepKeepsCall(c: Client, e: Event)
    requires PcInv(c) && CallInv(c) && Enabled(c, e)
    ensures CallInv(Step(c, e))
  {
    hide MustFlushFirst, BatchSize, IsFull, AttachHandle, WorkerStep, WorkerEnabled;
    if e.Queue? && (e.e.CheckItem? || e.e.SelectItem?) && |c.q.items| > 0 {
      StartsInside(c.q.items[0], c.q.consumer);
    }
    if e.Queue? && e.e.CheckPending? && c.q.pending.Some? {
      StartsInside(c.q.pending.value, c.q.consumer);
    }
  }

  lemma StartsInside(s: Submission, q: Q.Consumer)
    requires q.TryPending? || q.TryItem? || q.Selecting?
    ensures !Q.StartCollecting(s, q.call.maxBytes).Outside?
  {}

  lemma {:induction false} RunKeepsAll(cfg: Config, maxQueueSize: nat, producers: nat, workers: nat, events: seq<Event>)
    requires Run(NewClient(cfg, maxQueueSize, producers, workers), events).Some?
    ensures RunInv(Run(NewClient(cfg, maxQueueSize, producers, workers), events).value)
  {
    var c0 := NewClient(cfg, maxQueueSize, producers, workers);
    if |events| == 0 {
      InitClient(cfg, maxQueueSize, producers, workers);
      hide ClientInv;
    } else {
      var front, e := events[..|events| - 1], events[|events| - 1];
      RunKeepsAll(cfg, maxQueueSize, producers, workers, front);
      StepKeepsRunInv(Run(c0, front).value, e);
      hide RunInv, Step, Enabled, NewClient;
    }
  }

  lemma StepKeepsRunInv(c: Client, e: Event)
    requires RunInv(c) && Enabled(c, e)
    ensures RunInv(Step(c, e))
  {
    assert PcInv(c);
    hide ClientInv, NotEarly, CallInv, Step, Enabled, PcInv;
    StepKeepsClient(c, e);
    StepStaysNotEarly(c, e);
    StepKeepsCall(c, e);
  }

  // ---- it never sticks ------------------------------------------------------------------

  /** An event of the batcher, a worker or a delivery, rather than of a producer, the clock
      or a caller of Close. */
  predicate IsOwn(e: Event) {
    !e.Tick? && (e.Queue? ==> Q.ByConsumer(e.e))
  }

  lemma ReleaseIsOpen(q: Q.Queue)
    requires Q.Inv(q)
    ensures q.consumer.Releasing? ==> q.slots > 0 && q.consumer.owed > 0
  {
    QS.NothingBlocks(q);
    hide Q.Inv;
  }

  predicate IsBatchers(e: Event) {
    e.Batch? || (e.Queue? && Q.ByConsumer(e.e))
  }

  predicate IsWorkers(e: Event, i: nat) {
    (e.Take? || e.Stop? || e.Conclude? || e.Callback?) && e.i == i
  }

  /** The batcher waits in a select for a first submission: none is there, the queue is open,
      and the timer, if one is set, is not due. */
  predicate WaitsForItems(c: Client) {
    && c.q.consumer.Selecting? && |c.q.items| == 0 && !c.q.closed
    && (c.q.consumer.call.timed ==> c.now < c.b.timerAt)
  }

  /** An upload worker waits for a batch: the dispatch channel is empty and still open. */
  predicate WaitsForBatch(c: Client, i: nat)
    requires i < |c.w.pcs|
  {
    c.w.pcs[i].Waiting? && |c.w.owner| >= |c.d.sealed| && !c.d.closed
  }

  lemma ConsumerGoesOn(c: Client) returns (e: Event)
    requires c.q.consumer.Releasing? ==> c.q.slots > 0 && c.q.consumer.owed > 0
    requires !c.q.consumer.Outside? && !c.q.consumer.Answered? && !WaitsForItems(c)
    ensures IsBatchers(e) && Enabled(c, e)
  {
    var step := match c.q.consumer
      case TryPending(_) => Q.CheckPending
      case TryItem(_) => Q.CheckItem
      case Selecting(_) =>
        if |c.q.items| > 0 then Q.SelectItem else if c.q.closed then Q.SelectClose else Q.SelectTimer
      case Collecting(_, _, _) => Q.CollectNext
      case PushingBack(_, _, _, _) => Q.PushBack
      case _ => Q.ReleaseSlot;
    e := Queue(step);
  }

  lemma WorkerGoesOn(c: Client, i: nat) returns (e: Event)
    requires i < |c.w.pcs| && !c.w.pcs[i].Stopped? && !WaitsForBatch(c, i)
    ensures IsWorkers(e, i) && Enabled(c, e)
  {
    e := match c.w.pcs[i]
      case Waiting => if |c.w.owner| < |c.d.sealed| then Take(i) else Stop(i)
      case Delivering(_) => Conclude(i, DONE)
      case _ => Callback(i);
  }

  const DONE := DeliveryResult(None, 1, 0, 0)

  /** No deadlock: after Close some event of the client's own is possible until every
      worker has stopped. */
  lemma NeverStuck(c: Client) returns (e: Event)
    requires RunInv(c) && c.q.closed && c.cfg.dispatchSize > 0 && |c.w.pcs| > 0
    requires !AllWorkersStopped(c.w)
    ensures IsOwn(e) && Enabled(c, e)
  {
    var i: nat :| i < |c.w.pcs| && !c.w.pcs[i].Stopped?;
    assert StopInv(c.d, c.w) && PcInv(c) && EndInv(c) && QueueInv(c);
    ReleaseIsOpen(c.q);
    hide ClientInv, NotEarly, Q.IsDrained, QueueInv, MustFlushFirst;
    if Waits(c.b.pc) && !c.q.consumer.Answered? {
      e := ConsumerGoesOn(c);
    } else if c.b.pc.Finished? || (c.b.pc.Sealing? && Capacity(c) <= 0) {
      e := WorkerGoesOn(c, i);
    } else {
      e := Batch;
    }
  }

  // ---- it ends ----------------------------------------------------------------------------

  function WaitingWork(q: Q.Queue): nat {
    29 * (|q.items| + if q.pending.Some? then 1 else 0)
  }

  /** Steps a dequeue call may still cost, and the submissions it holds. */
  function CallWork(q: Q.Consumer): nat {
    match q
    case Outside => 0
    case TryPending(call) => if call.closing then 4 else 7
    case TryItem(call) => if call.closing then 3 else 6
    case Selecting(_) => 5
    case Collecting(_, held, _) => 28 * |held| + 3
    case PushingBack(_, held, _, _) => 28 * |held| + 31
    case Releasing(_, held, _, owed) => 27 * |held| + owed + 1
    case Answered(_, Got(subs, _)) => 27 * |subs| + 1
    case _ => 1
  }

  function PcWork(pc: BatcherPc): nat {
    17 * |Rest(pc)| +
    match pc
    case OuterCall => 8
    case DrainCheck => 9
    case Adding(_) => 10
    case _ => 0
  }

  function OpenWork(open: seq<Submission>): nat {
    if |open| == 0 then 0 else |open| + 15
  }

  /** Take, conclude, and one callback step a submission. */
  function BatchWork(d: Dispatch, w: Workers, k: nat): int
    requires k < |d.sealed|
  {
    if k >= |w.owner| then |d.sealed[k]| + 4
    else if k !in w.completions then |d.sealed[k]| + 3
    else |d.sealed[k]| - if k in w.progress then w.progress[k] else 0
  }

  function BatchesWork(d: Dispatch, w: Workers, n: nat): int
    requires n <= |d.sealed|
  {
    if n == 0 then 0 else BatchesWork(d, w, n - 1) + BatchWork(d, w, n - 1)
  }

  function PoolWork(pc: WorkerPc): int {
    match pc
    case Stopped => 0
    case Calling(_, _) => 2
    case _ => 1
  }

  function WorkersWork(d: Dispatch, w: Workers): int {
    BatchesWork(d, w, |d.sealed|) + SumBy(PoolWork, w.pcs)
  }

  /** A bound on the client's own steps from here on, once the queue is closed. */
  function Work(c: Client): int {
    WaitingWork(c.q) + CallWork(c.q.consumer) + PcWork(c.b.pc) + OpenWork(c.b.open) + WorkersWork(c.d, c.w)
  }

  // ---- the queue ----

  lemma ConsumerWorks(q: Q.Queue, e: Q.Event)
    requires Q.ByConsumer(e) && Q.ConsumerEnabled(q, e) && !e.BeginDequeue? && !e.TakeAnswer?
    requires q.consumer.Releasing? ==> q.consumer.owed <= |q.consumer.held|
    ensures var r := Q.ConsumerStep(q, e);
            WaitingWork(r) + CallWork(r.consumer) < WaitingWork(q) + CallWork(q.consumer)
  {
    hide WellSized, BatchSize;
  }

  lemma OthersLeaveWork(q: Q.Queue, e: Q.Event)
    requires q.closed && Q.Enabled(q, e) && !Q.ByConsumer(e)
    ensures var r := Q.Step(q, e);
            r.closed && WaitingWork(r) + CallWork(r.consumer) == WaitingWork(q) + CallWork(q.consumer)
  {
    hide WellSized;
  }

  // ---- the workers ----

  lemma {:induction false} OneBatchMoves(d: Dispatch, w: Workers, r: Workers, k: nat, n: nat)
    requires k < n <= |d.sealed|
    requires forall j: nat :: j < n && j != k ==> BatchWork(d, r, j) == BatchWork(d, w, j)
    ensures BatchesWork(d, r, n) - BatchesWork(d, w, n) == BatchWork(d, r, k) - BatchWork(d, w, k)
  {
    if n == k + 1 {
      NoBatchMoves(d, w, r, k);
    } else {
      OneBatchMoves(d, w, r, k, n - 1);
    }
  }

  lemma {:induction false} NoBatchMoves(d: Dispatch, w: Workers, r: Workers, n: nat)
    requires n <= |d.sealed|
    requires forall j: nat :: j < n ==> BatchWork(d, r, j) == BatchWork(d, w, j)
    ensures BatchesWork(d, r, n) == BatchesWork(d, w, n)
  {
    if n == 0 {
      assert BatchesWork(d, r, 0) == 0;
    } else {
      NoBatchMoves(d, w, r, n - 1);
    }
  }

  /** The batch a worker's step is about. */
  function BatchOf(w: Workers, e: Event): nat
    requires e.Take? || ((e.Conclude? || e.Callback?) && e.i < |w.pcs| && Busy(w.pcs[e.i]))
  {
    if e.Take? then |w.owner| else w.pcs[e.i].k
  }

  lemma OnlyItsBatchMoves(d: Dispatch, w: Workers, e: Event, j: nat)
    requires WorkerEnabled(d, w, e) && j < |d.sealed|
    requires e.Stop? || j != BatchOf(w, e)
    ensures BatchWork(d, WorkerStep(d, w, e), j) == BatchWork(d, w, j)
  {
    hide AnyCallback;
  }

  lemma ActorAndBatchWork(d: Dispatch, w: Workers, e: Event)
    requires OwnerInv(d, w) && CompletionInv(d, w) && ProgressInv(d, w) && WorkerEnabled(d, w, e) && !e.Stop?
    ensures var k, r := BatchOf(w, e), WorkerStep(d, w, e);
            && k < |d.sealed|
            && BatchWork(d, r, k) + PoolWork(r.pcs[e.i]) < BatchWork(d, w, k) + PoolWork(w.pcs[e.i])
    ensures WorkerStep(d, w, e).pcs == w.pcs[e.i := WorkerStep(d, w, e).pcs[e.i]]
  {
    hide AnyCallback;
  }

  /** A worker's step takes at least one off what its batch and itself still cost. */
  lemma WorkerWorks(d: Dispatch, w: Workers, e: Event)
    requires WorkerInv(d, w) && WorkerEnabled(d, w, e)
    ensures WorkersWork(d, WorkerStep(d, w, e)) < WorkersWork(d, w)
  {
    var r := WorkerStep(d, w, e);
    assert r.pcs == w.pcs[e.i := r.pcs[e.i]];
    SumUpdate(PoolWork, w.pcs, e.i, r.pcs[e.i]);
    forall j: nat | j < |d.sealed| && (e.Stop? || j != BatchOf(w, e))
      ensures BatchWork(d, r, j) == BatchWork(d, w, j)
    {
      OnlyItsBatchMoves(d, w, e, j);
    }
    if e.Stop? {
      assert PoolWork(r.pcs[e.i]) < PoolWork(w.pcs[e.i]);
      hide WorkerStep, BatchWork, SumBy, PoolWork;
      NoBatchMoves(d, w, r, |d.sealed|);
    } else {
      ActorAndBatchWork(d, w, e);
      hide WorkerStep, BatchWork, SumBy, PoolWork, OwnerInv, CompletionInv, ProgressInv;
      OneBatchMoves(d, w, r, BatchOf(w, e), |d.sealed|);
    }
  }

  lemma {:induction false} SealedCost(d: Dispatch, more: Dispatch, w: Workers, n: nat)
    requires n <= |d.sealed| && d.sealed <= more.sealed
    ensures BatchesWork(more, w, n) == BatchesWork(d, w, n)
  {
    if n == 0 {
      assert BatchesWork(more, w, 0) == 0;
    } else {
      SealedCost(d, more, w, n - 1);
    }
  }

  lemma SealingCosts(d: Dispatch, more: Dispatch, w: Workers, open: seq<Submission>)
    requires |w.owner| <= |d.sealed| && more.sealed == d.sealed + [open]
    ensures WorkersWork(more, w) == WorkersWork(d, w) + |open| + 4
  {
    SealedCost(d, more, w, |d.sealed|);
  }

  lemma SameBatches(d: Dispatch, more: Dispatch, w: Workers)
    requires more.sealed == d.sealed
    ensures WorkersWork(more, w) == WorkersWork(d, w)
  {
    SealedCost(d, more, w, |d.sealed|);
  }

  // ---- the batcher ----

  ghost predicate AnswersSound(c: Client) {
    && (c.q.consumer.Answered? && c.q.consumer.answer.Got? ==> |c.q.consumer.answer.subs| > 0)
    && (HasTimedOut(c.q.consumer) ==> c.b.pc.DrainWait?)
    && |c.w.owner| <= |c.d.sealed|
  }

  lemma AddWorks(c: Client)
    requires c.b.pc.Adding?
    ensures Work(AddStep(c)) < Work(c)
  {
    hide MustFlushFirst, IsFull, AttachHandle, WaitingWork, CallWork;
    SameBatches(c.d, AddStep(c).d, c.w);
    hide WorkersWork;
  }

  lemma PlaceWorks(cfg: Config, b: Batcher, now: int, rest: seq<Submission>, k: nat)
    requires |rest| > 0
    ensures var r := Place(cfg, b, now, rest, k);
            PcWork(r.pc) + OpenWork(r.open) <= 10 + 17 * (|rest| - 1) + |b.open| + 16
  {
    hide IsFull, AttachHandle;
  }

  /** What sealing leaves of the batcher's own work. */
  lemma SealLeaves(c: Client)
    requires PcInv(c) && c.b.pc.Sealing?
    ensures var r := SealStep(c);
            PcWork(r.b.pc) + OpenWork(r.b.open) + |c.b.open| + 4 < PcWork(c.b.pc) + OpenWork(c.b.open)
    ensures SealStep(c).d.sealed == c.d.sealed + [c.b.open]
    ensures SealStep(c).q == c.q && SealStep(c).w == c.w
  {
    if c.b.pc.after.AddNext? {
      PlaceWorks(c.cfg, c.b.(open := []), c.now, c.b.pc.after.rest, |c.d.sealed| + 1);
    }
    hide MustFlushFirst, Place;
  }

  lemma SealWorks(c: Client)
    requires PcInv(c) && c.b.pc.Sealing? && |c.w.owner| <= |c.d.sealed|
    ensures Work(SealStep(c)) < Work(c)
  {
    SealLeaves(c);
    SealingCosts(c.d, SealStep(c).d, c.w, c.b.open);
    hide SealStep, PcInv, PcWork, OpenWork, WaitingWork, CallWork, WorkersWork;
  }

  lemma AnswerWorks(c: Client)
    requires PcInv(c) && Waits(c.b.pc) && c.q.consumer.Answered? && AnswersSound(c)
    ensures Work(AnswerStep(c)) < Work(c)
  {
    SameBatches(c.d, AnswerStep(c).d, c.w);
    hide MustFlushFirst, WorkersWork;
  }

  lemma DrainWorks(c: Client)
    requires c.b.pc.DrainCheck? && c.q.consumer.Outside?
    ensures Work(DrainStep(c)) < Work(c)
  {
    SameBatches(c.d, DrainStep(c).d, c.w);
    hide BatchSize, WorkersWork;
  }

  lemma BatchWorks(c: Client)
    requires PcInv(c) && AnswersSound(c) && BatchEnabled(c)
    ensures Work(BatchStep(c)) < Work(c)
  {
    match c.b.pc {
      case OuterCall =>
        hide WorkersWork, PcInv;
      case OuterWait => AnswerWorks(c);
      case Adding(_) => AddWorks(c);
      case DrainCheck => DrainWorks(c);
      case DrainWait => AnswerWorks(c);
      case Sealing(_) => SealWorks(c);
    }
  }

  // ---- every run ----

  lemma AnswersAreSound(c: Client)
    requires RunInv(c)
    ensures AnswersSound(c)
  {
    assert Q.ConsumerSound(c.q) && OwnerInv(c.d, c.w);
    hide ClientInv, CallInv;
  }

  lemma QueueWorks(c: Client, e: Q.Event)
    requires QueueInv(c) && c.q.closed && QueueEnabled(c, e)
    ensures var r := QueueStep(c, e);
            && r.q.closed && Work(r) <= Work(c) && (Q.ByConsumer(e) ==> Work(r) < Work(c))
  {
    assert Q.ConsumerSound(c.q);
    if Q.ByConsumer(e) {
      assert c.q.consumer.Releasing? ==> c.q.consumer.owed <= |c.q.consumer.held|;
      ConsumerWorks(c.q, e);
      QS.ConsumerLeavesProducers(c.q, e);
    } else {
      OthersLeaveWork(c.q, e);
    }
    var r := QueueStep(c, e);
    assert r.d == c.d && r.w == c.w && r.b.pc == c.b.pc && r.b.open == c.b.open && r.q == Q.Step(c.q, e);
    hide QueueInv, Q.ConsumerSound, QueueStep, QueueEnabled, WaitingWork, CallWork, PcWork, OpenWork, WorkersWork,
         Q.ConsumerStep, Q.ConsumerEnabled, Q.ProducerStep, Q.ProducerEnabled;
  }

  lemma BatchKeepsClosed(c: Client)
    requires PcInv(c) && c.q.closed && BatchEnabled(c)
    ensures BatchStep(c).q.closed
  {
    BatchTouchesQueue(c);
    hide BatchStep, BatchEnabled, PcInv;
  }

  /** After Close each own step uses up work, and no other event brings any. */
  lemma StepWorks(c: Client, e: Event)
    requires RunInv(c) && c.q.closed && Enabled(c, e)
    ensures var r := Step(c, e); r.q.closed && Work(r) <= Work(c) && (IsOwn(e) ==> Work(r) < Work(c))
  {
    match e {
      case Queue(q) =>
        assert QueueInv(c);
        QueueWorks(c, q);
      case Batch =>
        AnswersAreSound(c);
        assert PcInv(c);
        BatchWorks(c);
        BatchKeepsClosed(c);
      case Tick(_) =>
      case _ =>
        assert WorkerInv(c.d, c.w);
        WorkerWorks(c.d, c.w, e);
    }
    hide RunInv, QueueStep, BatchStep, WorkerStep, QueueEnabled, BatchEnabled, WorkerEnabled, WaitingWork, CallWork,
         PcWork, OpenWork, WorkersWork, AnswersSound, PcInv;
  }

  lemma {:induction false} BatchesWorkIsNat(d: Dispatch, w: Workers, n: nat)
    requires ProgressInv(d, w) && n <= |d.sealed|
    ensures BatchesWork(d, w, n) >= 0
  {
    if n == 0 {
      assert BatchesWork(d, w, 0) == 0;
    } else {
      BatchesWorkIsNat(d, w, n - 1);
    }
  }

  lemma WorkIsNat(c: Client)
    requires ProgressInv(c.d, c.w)
    ensures Work(c) >= 0
  {
    BatchesWorkIsNat(c.d, c.w, |c.d.sealed|);
    SumAtLeast(PoolWork, c.w.pcs);
    hide ProgressInv, WaitingWork, CallWork, PcWork, OpenWork;
  }

  function OwnSteps(events: seq<Event>): nat {
    if |events| == 0 then 0
    else OwnSteps(events[..|events| - 1]) + if IsOwn(events[|events| - 1]) then 1 else 0
  }

  lemma {:induction false} OwnStepsAreBounded(c: Client, events: seq<Event>)
    requires RunInv(c) && c.q.closed && Run(c, events).Some?
    ensures var r := Run(c, events).value; RunInv(r) && r.q.closed && OwnSteps(events) + Work(r) <= Work(c)
  {
    if |events| == 0 {
      assert Run(c, events).value == c;
    } else {
      var front, e := events[..|events| - 1], events[|events| - 1];
      OwnStepsAreBounded(c, front);
      StepKeepsRunInv(Run(c, front).value, e);
      StepWorks(Run(c, front).value, e);
      hide RunInv, Step, Enabled, Work, IsOwn;
    }
  }

  lemma PoolKeepsSize(c: Client, e: Event)
    requires BatcherInv(c) && Enabled(c, e)
    ensures |Step(c, e).w.pcs| == |c.w.pcs| && Step(c, e).cfg == c.cfg
  {
    StepKeepsConfig(c, e);
    if e.Batch? {
      BatchTouchesQueue(c);
    }
    hide BatcherInv, BatchStep, Q.Step, Q.Enabled, AnyCallback, CompleteOnce;
  }

  lemma {:induction false} PoolSize(c: Client, events: seq<Event>)
    requires BatcherInv(c) && Run(c, events).Some?
    ensures var r := Run(c, events).value; |r.w.pcs| == |c.w.pcs| && r.cfg == c.cfg
  {
    if |events| == 0 {
      assert Run(c, events).value == c;
    } else {
      var front, e := events[..|events| - 1], events[|events| - 1];
      PoolSize(c, front);
      RunKeepsBatcher(c, front);
      PoolKeepsSize(Run(c, front).value, e);
      hide BatcherInv, Step, Enabled;
    }
  }

  /** Close ends. From any reachable state with the queue closed, whatever producers and the
      clock do, the client takes at most `Work` steps of its own; and as long as some worker
      has not stopped, one more is possible. */
  lemma CloseEnds(cfg: Config, maxQueueSize: nat, producers: nat, workers: nat, before: seq<Event>, after: seq<Event>)
    requires cfg.dispatchSize > 0 && workers > 0
    requires var c0 := NewClient(cfg, maxQueueSize, producers, workers);
             && Run(c0, before).Some? && Run(c0, before).value.q.closed
             && Run(Run(c0, before).value, after).Some?
    ensures var c := Run(NewClient(cfg, maxQueueSize, producers, workers), before).value;
            var r := Run(c, after).value;
            && OwnSteps(after) <= Work(c)
            && (AllWorkersStopped(r.w) || exists e :: IsOwn(e) && Enabled(r, e))
  {
    var c0 := NewClient(cfg, maxQueueSize, producers, workers);
    RunKeepsAll(cfg, maxQueueSize, producers, workers, before);
    RunKeepsAll(cfg, maxQueueSize, producers, workers, []);
    assert Run(c0, []).value == c0 && |c0.w.pcs| == workers && c0.cfg == cfg;
    var c := Run(c0, before).value;
    var r := Run(c, after).value;
    assert BatcherInv(c0) && BatcherInv(c);
    hide NewClient;
    PoolSize(c0, before);
    PoolSize(c, after);
    OwnStepsAreBounded(c, after);
    assert ProgressInv(r.d, r.w);
    hide RunInv, BatcherInv, ProgressInv, Work, Enabled, IsOwn, Run, OwnSteps;
    WorkIsNat(r);
    if !AllWorkersStopped(r.w) {
      var e := NeverStuck(r);
    }
  }
}
