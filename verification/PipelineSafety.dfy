/** Batching refines one left fold over the accepted submissions, whatever the chunks, the
    push-backs and the interleaving. */
module PipelineSafety {
  import Encoding
  import Q = QueueSteps
  import QS = QueueSafety
  import opened Seqs
  import opened Submissions
  import opened Packing
  import opened Pipeline

  /** The batches dispatched and the open one are the fold over the batcher's log. */
  ghost predicate PackInv(c: Client) {
    View(c.d, c.b) == Fold(c.cfg.mode, c.cfg.batchBytes, EMPTY, c.b.log)
  }

  /** Everything dequeued is in the log, in hand, or in an answer about to be taken. */
  ghost predicate FlowInv(c: Client) {
    c.q.delivered == Arrivals(c.b.log) + Rest(c.b.pc) + InAnswer(c.q.consumer)
  }

  /** The batcher is the queue's only consumer, and it waits for a first submission in the
      outer call only while no batch is open. */
  ghost predicate PcInv(c: Client) {
    && (!Waits(c.b.pc) ==> c.q.consumer.Outside?)
    && (c.b.pc.OuterCall? || c.b.pc.OuterWait? || c.b.pc.Finished? ==> c.b.open == [])
    && (c.b.pc.Sealing? || c.b.pc.DrainWait? ==> c.b.open != [])
    && (c.b.pc.Sealing? && c.b.pc.after.AddNext? ==>
          |c.b.pc.after.rest| > 0
          && MustFlushFirst(c.cfg.mode, c.cfg.batchBytes, c.b.open, c.b.pc.after.rest[0]))
  }

  predicate AtEnd(c: Client) {
    c.b.pc.Finished? || c.b.pc == Sealing(ToEnd)
  }

  ghost predicate EndInv(c: Client) {
    && (c.d.closed <==> c.b.pc.Finished?)
    && (AtEnd(c) ==> Q.IsDrained(c.q))
  }

  ghost predicate QueueInv(c: Client) {
    && Q.Inv(c.q) && QS.IdsDistinct(c.q)
    && c.q.mode == c.cfg.mode
    && AllFit(c.cfg.batchBytes, c.q)
  }

  /** The admission check holds of every submission that is or may still be accepted. */
  ghost predicate AllFit(limit: int, q: Q.Queue) {
    && (forall i :: 0 <= i < |q.accepted| ==> FitsLimit(limit, q.accepted[i].standaloneByteSize))
    && (forall p :: 0 <= p < |q.producers| ==> !q.producers[p].Idle? ==>
          FitsLimit(limit, q.producers[p].s.standaloneByteSize))
  }

  ghost predicate BatcherInv(c: Client) {
    QueueInv(c) && PackInv(c) && FlowInv(c) && PcInv(c) && EndInv(c)
  }

  lemma InitBatcher(cfg: Config, maxQueueSize: nat, producers: nat, workers: nat)
    ensures BatcherInv(NewClient(cfg, maxQueueSize, producers, workers))
  {
    QS.InitInv(cfg.mode, maxQueueSize, producers);
  }

  // ---- queue events -----------------------------------------------------------------

  /** A queue event of the client's adds to `delivered` exactly what it answers with. */
  lemma AnswersAreDelivered(q: Q.Queue, e: Q.Event)
    requires Q.Enabled(q, e) && !e.BeginDequeue? && !e.TakeAnswer?
    ensures var r := Q.Step(q, e);
            if q.consumer.Answered? || !r.consumer.Answered?
            then r.delivered == q.delivered && InAnswer(r.consumer) == InAnswer(q.consumer)
            else r.delivered == q.delivered + InAnswer(r.consumer)
    ensures q.consumer.Outside? ==> Q.Step(q, e).consumer.Outside?
  {
    hide WellSized, Q.StartCollecting;
    if Q.ByConsumer(e) {
      assert !q.consumer.Answered? && !q.consumer.Outside?;
      if |q.items| > 0 && (e.CheckItem? || e.SelectItem?) {
        assert !Q.Step(q, e).consumer.Answered? by {
          StartsCollecting(q.items[0], q.consumer.call.maxBytes);
        }
      } else if e.CheckPending? && q.pending.Some? {
        StartsCollecting(q.pending.value, q.consumer.call.maxBytes);
      }
    }
  }

  lemma StartsCollecting(s: Submission, maxBytes: int)
    ensures !Q.StartCollecting(s, maxBytes).Answered?
  {}

  lemma StepKeepsFits(limit: int, q: Q.Queue, e: Q.Event)
    requires AllFit(limit, q) && Q.Enabled(q, e)
    requires e.BeginEnqueue? ==> FitsLimit(limit, e.s.standaloneByteSize)
    ensures AllFit(limit, Q.Step(q, e)) && Q.Step(q, e).mode == q.mode
  {
    if Q.ByConsumer(e) {
      QS.ConsumerLeavesProducers(q, e);
      hide Q.ConsumerStep, Q.ConsumerEnabled;
    }
    hide WellSized, FitsLimit;
  }

  lemma QueueKeepsAdmission(c: Client, e: Q.Event)
    requires QueueInv(c) && QueueEnabled(c, e)
    ensures QueueInv(QueueStep(c, e))
  {
    QS.StepKeepsInv(c.q, e);
    QS.StepKeepsIds(c.q, e);
    StepKeepsFits(c.cfg.batchBytes, c.q, e);
    hide Q.Inv, QS.IdsDistinct, AllFit, Q.Step, Q.Enabled;
  }

  lemma QueueKeepsFlow(c: Client, e: Q.Event)
    requires FlowInv(c) && PcInv(c) && QueueEnabled(c, e)
    ensures FlowInv(QueueStep(c, e)) && PcInv(QueueStep(c, e))
  {
    AnswersAreDelivered(c.q, e);
    var r := QueueStep(c, e);
    assert r.b.pc == c.b.pc && r.b.log == c.b.log && r.b.open == c.b.open;
    assert InAnswer(c.q.consumer) == [] || c.q.consumer.Answered?;
    assert Arrivals(c.b.log) + Rest(c.b.pc) + [] == Arrivals(c.b.log) + Rest(c.b.pc);
    hide Q.Step, Q.Enabled, MustFlushFirst, Arrivals;
  }

  lemma QueueKeepsBatcher(c: Client, e: Q.Event)
    requires BatcherInv(c) && QueueEnabled(c, e)
    ensures BatcherInv(QueueStep(c, e))
  {
    QueueKeepsAdmission(c, e);
    QueueKeepsFlow(c, e);
    var r := QueueStep(c, e);
    if AtEnd(c) {
      QS.DrainedStays(c.q, e);
    }
    assert r.cfg == c.cfg && r.d == c.d && r.b.pc == c.b.pc && r.b.log == c.b.log && r.b.open == c.b.open;
    hide QueueInv, FlowInv, PcInv, Q.Step, Q.IsDrained, Fold;
  }

  // ---- batcher steps ----------------------------------------------------------------

  function Settled(cfg: Config, sealed: seq<seq<Submission>>, open: seq<Submission>): Packer {
    if IsFull(cfg.mode, cfg.batchBytes, open) then Packer(sealed + [open], []) else Packer(sealed, open)
  }

  /** The fold's reaction to a submission, with the flush in front of it spelt out. */
  lemma ArriveIs(cfg: Config, sealed: seq<seq<Submission>>, open: seq<Submission>, log: seq<Token>, s: Submission)
    requires Packer(sealed, open) == Fold(cfg.mode, cfg.batchBytes, EMPTY, log)
    ensures Fold(cfg.mode, cfg.batchBytes, EMPTY, log + [Arrive(s)]) ==
            if MustFlushFirst(cfg.mode, cfg.batchBytes, open, s) then Settled(cfg, sealed + [open], [s])
            else Settled(cfg, sealed, open + [s])
    ensures Arrivals(log + [Arrive(s)]) == Arrivals(log) + [s]
  {
    FoldAppend(cfg.mode, cfg.batchBytes, EMPTY, log, Arrive(s));
    hide Fold, Arrivals, BatchSize;
    assert [] + [s] == [s];
  }

  /** Placing a submission is the fold's own step, when no flush is due before it. */
  lemma PlaceIsFold(cfg: Config, b: Batcher, d: Dispatch, now: int, rest: seq<Submission>, k: nat)
    requires |rest| > 0
    requires Settled(cfg, d.sealed, b.open + [rest[0]]) ==
             Fold(cfg.mode, cfg.batchBytes, EMPTY, b.log + [Arrive(rest[0])])
    ensures View(d, Place(cfg, b, now, rest, k)) ==
            Fold(cfg.mode, cfg.batchBytes, EMPTY, Place(cfg, b, now, rest, k).log)
  {
    hide Fold, Arrivals, IsFull, AttachHandle;
  }

  lemma PlaceMovesOne(cfg: Config, b: Batcher, now: int, rest: seq<Submission>, k: nat)
    requires |rest| > 0
    requires Arrivals(b.log + [Arrive(rest[0])]) == Arrivals(b.log) + [rest[0]]
    ensures var r := Place(cfg, b, now, rest, k);
            && Arrivals(r.log) + Rest(r.pc) == Arrivals(b.log) + rest
            && r.open == b.open + [rest[0]] && r.open != []
            && (r.pc.Adding? || (r.pc.Sealing? && r.pc.after.Continue?))
  {
    assert (Arrivals(b.log) + [rest[0]]) + rest[1..] == Arrivals(b.log) + rest;
    hide Fold, Arrivals, IsFull, AttachHandle;
  }

  lemma FlushIsFold(cfg: Config, d: Dispatch, b: Batcher, after: After)
    requires b.open != [] && !after.AddNext?
    requires Packer(d.sealed, b.open) == Fold(cfg.mode, cfg.batchBytes, EMPTY, b.log)
    ensures var r := FlushThen(b, after);
            && View(d, r) == Fold(cfg.mode, cfg.batchBytes, EMPTY, r.log)
            && Arrivals(r.log) == Arrivals(b.log)
  {
    FoldAppend(cfg.mode, cfg.batchBytes, EMPTY, b.log, Flush);
    hide Fold, Arrivals;
  }

  ghost predicate FoldInv(c: Client) {
    PackInv(c) && FlowInv(c)
  }

  lemma AddKeepsPack(c: Client)
    requires PackInv(c) && c.b.pc.Adding?
    ensures PackInv(AddStep(c))
  {
    var rest := c.b.pc.rest;
    if |rest| > 0 {
      ArriveIs(c.cfg, c.d.sealed, c.b.open, c.b.log, rest[0]);
      hide Fold, Arrivals, MustFlushFirst, Place, IsFull, Settled;
      if !MustFlushFirst(c.cfg.mode, c.cfg.batchBytes, c.b.open, rest[0]) {
        PlaceIsFold(c.cfg, c.b, c.d, c.now, rest, |c.d.sealed|);
      }
    }
  }

  /** Moving submissions from in hand to the log leaves the flow as it is. */
  lemma SameFlow(c: Client, r: Client)
    requires FlowInv(c) && r.q == c.q
    requires Arrivals(r.b.log) + Rest(r.b.pc) == Arrivals(c.b.log) + Rest(c.b.pc)
    ensures FlowInv(r)
  {
    hide Arrivals, Rest, InAnswer;
  }

  lemma AddMovesOne(c: Client)
    requires c.b.pc.Adding?
    ensures Arrivals(AddStep(c).b.log) + Rest(AddStep(c).b.pc) == Arrivals(c.b.log) + Rest(c.b.pc)
    ensures AddStep(c).q == c.q
  {
    hide Arrivals, MustFlushFirst, IsFull, Place;
    var rest := c.b.pc.rest;
    assert Rest(c.b.pc) == rest && AddStep(c).q == c.q;
    if |rest| > 0 && !MustFlushFirst(c.cfg.mode, c.cfg.batchBytes, c.b.open, rest[0]) {
      assert AddStep(c).b == Place(c.cfg, c.b, c.now, rest, |c.d.sealed|);
      hide AddStep, Rest;
      FoldAppend(c.cfg.mode, c.cfg.batchBytes, EMPTY, c.b.log, Arrive(rest[0]));
      PlaceMovesOne(c.cfg, c.b, c.now, rest, |c.d.sealed|);
    } else {
      assert AddStep(c).b.log == c.b.log && Rest(AddStep(c).b.pc) == rest;
    }
  }

  lemma AddKeepsFlow(c: Client)
    requires FlowInv(c) && c.b.pc.Adding?
    ensures FlowInv(AddStep(c))
  {
    AddMovesOne(c);
    hide FlowInv, AddStep, Arrivals, Rest;
    SameFlow(c, AddStep(c));
  }

  lemma AddKeepsPc(c: Client)
    requires PcInv(c) && EndInv(c) && c.b.pc.Adding?
    ensures PcInv(AddStep(c)) && EndInv(AddStep(c))
  {
    hide Q.IsDrained, AttachHandle, IsFull;
    var rest := c.b.pc.rest;
    assert |rest| > 0 && MustFlushFirst(c.cfg.mode, c.cfg.batchBytes, c.b.open, rest[0]) ==> c.b.open != [];
    hide MustFlushFirst;
  }

  lemma SealKeepsPack(c: Client)
    requires PackInv(c) && PcInv(c) && c.b.pc.Sealing?
    ensures PackInv(SealStep(c))
  {
    if c.b.pc.after.AddNext? {
      var rest := c.b.pc.after.rest;
      var d, b := c.d.(sealed := c.d.sealed + [c.b.open]), c.b.(open := []);
      ArriveIs(c.cfg, c.d.sealed, c.b.open, c.b.log, rest[0]);
      assert [] + [rest[0]] == [rest[0]];
      hide Fold, Arrivals, MustFlushFirst, Place, IsFull, Settled;
      PlaceIsFold(c.cfg, b, d, c.now, rest, |d.sealed|);
    }
    hide Fold, MustFlushFirst, Place, IsFull;
  }

  lemma SealMovesOne(c: Client)
    requires PcInv(c) && c.b.pc.Sealing?
    ensures Arrivals(SealStep(c).b.log) + Rest(SealStep(c).b.pc) == Arrivals(c.b.log) + Rest(c.b.pc)
    ensures SealStep(c).q == c.q
  {
    hide Arrivals, MustFlushFirst, IsFull, Place;
    if c.b.pc.after.AddNext? {
      var rest, emptied := c.b.pc.after.rest, c.b.(open := []);
      assert SealStep(c).b == Place(c.cfg, emptied, c.now, rest, |c.d.sealed| + 1);
      assert Rest(c.b.pc) == rest && SealStep(c).q == c.q;
      hide SealStep, Rest;
      FoldAppend(c.cfg.mode, c.cfg.batchBytes, EMPTY, c.b.log, Arrive(rest[0]));
      PlaceMovesOne(c.cfg, emptied, c.now, rest, |c.d.sealed| + 1);
    } else {
      assert SealStep(c).b.log == c.b.log && Rest(SealStep(c).b.pc) == Rest(c.b.pc);
    }
  }

  lemma SealKeepsFlow(c: Client)
    requires FlowInv(c) && PcInv(c) && c.b.pc.Sealing?
    ensures FlowInv(SealStep(c))
  {
    SealMovesOne(c);
    hide FlowInv, PcInv, SealStep, Arrivals, Rest;
    SameFlow(c, SealStep(c));
  }

  lemma SealKeepsPc(c: Client)
    requires PcInv(c) && EndInv(c) && c.b.pc.Sealing?
    ensures PcInv(SealStep(c)) && EndInv(SealStep(c))
  {
    hide Q.IsDrained, AttachHandle, IsFull, MustFlushFirst;
  }

  lemma DrainKeepsFold(c: Client)
    requires FoldInv(c) && PcInv(c) && c.b.pc.DrainCheck? && c.q.consumer.Outside?
    ensures FoldInv(DrainStep(c))
  {
    if |c.b.open| > 0 {
      FlushIsFold(c.cfg, c.d, c.b, ToOuter);
    }
    hide Fold, Arrivals, MustFlushFirst, BatchSize, FlushThen;
    var f := FlushThen(c.b, ToOuter);
    assert Rest(f.pc) == [] by {
      FlushFacts(c.b, ToOuter);
    }
  }

  lemma FlushFacts(b: Batcher, after: After)
    ensures var f := FlushThen(b, after);
            f.pc == Sealing(after) && f.open == b.open && f.createdAt == b.createdAt && f.handles == b.handles
            && f.timeout == b.timeout && f.timerAt == b.timerAt
  {}

  lemma DrainKeepsPc(c: Client)
    requires PcInv(c) && EndInv(c) && c.b.pc.DrainCheck? && c.q.consumer.Outside?
    ensures PcInv(DrainStep(c)) && EndInv(DrainStep(c))
  {
    hide Q.IsDrained, MustFlushFirst, BatchSize;
  }

  lemma DequeueKeepsQueue(c: Client, e: Q.Event)
    requires QueueInv(c) && (e.BeginDequeue? || e.TakeAnswer?) && Q.ConsumerEnabled(c.q, e)
    ensures QueueInv(c.(q := Q.ConsumerStep(c.q, e)))
  {
    QS.StepKeepsInv(c.q, e);
    QS.StepKeepsIds(c.q, e);
    QS.ConsumerLeavesProducers(c.q, e);
    hide Q.Inv, QS.IdsDistinct, Q.ConsumerStep, Q.ConsumerEnabled;
  }

  lemma GotKeepsFold(c: Client)
    requires FoldInv(c) && Waits(c.b.pc) && c.q.consumer.Answered? && c.q.consumer.answer.Got?
    ensures FoldInv(AnswerStep(c))
  {
    var subs := c.q.consumer.answer.subs;
    assert Arrivals(c.b.log) + [] + subs == Arrivals(c.b.log) + subs + [];
    hide Fold, Arrivals, FlushThen;
  }

  /** An answer without submissions: the open batch, if there is one, is flushed. */
  lemma EmptyAnswerIs(c: Client)
    requires Waits(c.b.pc) && c.q.consumer.Answered? && !c.q.consumer.answer.Got?
    ensures var r, after := AnswerStep(c), if c.q.consumer.answer.TimedOut? then ToOuter else ToEnd;
            && r.cfg == c.cfg && r.d.sealed == c.d.sealed && r.q.delivered == c.q.delivered && r.q.consumer.Outside?
            && (if |c.b.open| > 0 then r.b == FlushThen(c.b, after)
                else r.b.open == c.b.open && r.b.log == c.b.log && (r.b.pc.OuterCall? || r.b.pc.Finished?))
  {
    hide FlushThen;
  }

  lemma EmptyAnswerKeepsPack(c: Client)
    requires FoldInv(c) && Waits(c.b.pc) && c.q.consumer.Answered? && !c.q.consumer.answer.Got?
    ensures PackInv(AnswerStep(c))
  {
    EmptyAnswerIs(c);
    var after := if c.q.consumer.answer.TimedOut? then ToOuter else ToEnd;
    if |c.b.open| > 0 {
      FlushIsFold(c.cfg, c.d, c.b, after);
    }
    hide Fold, Arrivals, FlushThen, AnswerStep;
  }

  lemma EmptyAnswerKeepsFlow(c: Client)
    requires FoldInv(c) && Waits(c.b.pc) && c.q.consumer.Answered? && !c.q.consumer.answer.Got?
    ensures FlowInv(AnswerStep(c))
  {
    EmptyAnswerIs(c);
    var after := if c.q.consumer.answer.TimedOut? then ToOuter else ToEnd;
    if |c.b.open| > 0 {
      FlushIsFold(c.cfg, c.d, c.b, after);
      FlushFacts(c.b, after);
    }
    hide Fold, Arrivals, FlushThen, AnswerStep, PackInv;
  }

  lemma AnswerKeepsFold(c: Client)
    requires FoldInv(c) && Waits(c.b.pc) && c.q.consumer.Answered?
    ensures FoldInv(AnswerStep(c))
  {
    if c.q.consumer.answer.Got? {
      GotKeepsFold(c);
    } else {
      EmptyAnswerKeepsPack(c);
      EmptyAnswerKeepsFlow(c);
    }
    hide PackInv, FlowInv, AnswerStep;
  }

  lemma AnswerKeepsPc(c: Client)
    requires PcInv(c) && EndInv(c) && Q.ConsumerSound(c.q) && Waits(c.b.pc) && c.q.consumer.Answered?
    ensures PcInv(AnswerStep(c)) && EndInv(AnswerStep(c))
  {
    hide MustFlushFirst, Q.Gathered;
  }

  lemma BatchKeepsFold(c: Client)
    requires FoldInv(c) && PcInv(c) && BatchEnabled(c)
    ensures FoldInv(BatchStep(c))
  {
    match c.b.pc {
      case OuterCall =>
        hide Fold, Arrivals;
      case OuterWait => AnswerKeepsFold(c);
      case Adding(_) =>
        AddKeepsPack(c);
        AddKeepsFlow(c);
      case DrainCheck => DrainKeepsFold(c);
      case DrainWait => AnswerKeepsFold(c);
      case Sealing(_) =>
        SealKeepsPack(c);
        SealKeepsFlow(c);
    }
  }

  lemma BatchKeepsPc(c: Client)
    requires PcInv(c) && EndInv(c) && Q.ConsumerSound(c.q) && BatchEnabled(c)
    ensures PcInv(BatchStep(c)) && EndInv(BatchStep(c))
  {
    match c.b.pc {
      case OuterCall =>
        hide Q.IsDrained, MustFlushFirst;
      case OuterWait => AnswerKeepsPc(c);
      case Adding(_) => AddKeepsPc(c);
      case DrainCheck => DrainKeepsPc(c);
      case DrainWait => AnswerKeepsPc(c);
      case Sealing(_) => SealKeepsPc(c);
    }
  }

  /** The batcher touches the queue only to start a dequeue or to take an answer. */
  lemma BatchTouchesQueue(c: Client)
    requires PcInv(c) && BatchEnabled(c)
    ensures var r := BatchStep(c);
            || r.q == c.q
            || (exists maxBytes, timed :: Q.ConsumerEnabled(c.q, Q.BeginDequeue(maxBytes, timed))
                                          && r.q == Q.ConsumerStep(c.q, Q.BeginDequeue(maxBytes, timed)))
            || (Q.ConsumerEnabled(c.q, Q.TakeAnswer) && r.q == Q.ConsumerStep(c.q, Q.TakeAnswer))
    ensures BatchStep(c).cfg == c.cfg && BatchStep(c).w == c.w && BatchStep(c).now == c.now
  {
    hide Place, FlushThen, MustFlushFirst, BatchSize, Q.ConsumerStep;
  }

  lemma BatchKeepsQueue(c: Client)
    requires QueueInv(c) && PcInv(c) && BatchEnabled(c)
    ensures QueueInv(BatchStep(c))
  {
    BatchTouchesQueue(c);
    var r := BatchStep(c);
    if r.q != c.q {
      if Q.ConsumerEnabled(c.q, Q.TakeAnswer) && r.q == Q.ConsumerStep(c.q, Q.TakeAnswer) {
        DequeueKeepsQueue(c, Q.TakeAnswer);
      } else {
        var maxBytes, timed :| Q.ConsumerEnabled(c.q, Q.BeginDequeue(maxBytes, timed))
                               && r.q == Q.ConsumerStep(c.q, Q.BeginDequeue(maxBytes, timed));
        DequeueKeepsQueue(c, Q.BeginDequeue(maxBytes, timed));
      }
    }
    hide Q.Inv, QS.IdsDistinct, BatchStep, BatchEnabled, Q.ConsumerStep, PcInv;
  }

  lemma StepKeepsBatcher(c: Client, e: Event)
    requires BatcherInv(c) && Enabled(c, e)
    ensures BatcherInv(Step(c, e))
  {
    match e {
      case Queue(q) => QueueKeepsBatcher(c, q);
      case Batch =>
        BatchKeepsFold(c);
        BatchKeepsPc(c);
        BatchKeepsQueue(c);
      case _ => OthersKeepBatcher(c, e);
    }
    hide QueueInv, PackInv, FlowInv, PcInv, EndInv, QueueStep, BatchStep, WorkerStep;
  }

  lemma OthersKeepBatcher(c: Client, e: Event)
    requires BatcherInv(c) && Enabled(c, e) && !e.Queue? && !e.Batch?
    ensures BatcherInv(Step(c, e))
  {
    var r := Step(c, e);
    assert r.q == c.q && r.b == c.b && r.d == c.d && r.cfg == c.cfg;
    hide Q.Inv, QS.IdsDistinct, Fold, Arrivals, Step, Enabled;
  }
}
