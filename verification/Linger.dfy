/** Linger as a maximum age: an open batch is flushed when it has lingered long enough,
    not before, and not after when nothing but waiting takes time. */
module Linger {
  import Q = QueueSteps
  import opened Seqs
  import opened Submissions
  import opened Packing
  import opened Pipeline
  import opened PipelineSafety
  import opened Refinement

  /** The dequeue call in progress, while it is looking for a first submission. */
  function Looking(q: Q.Consumer): Option<Q.Call> {
    match q
    case TryPending(call) => Some(call)
    case TryItem(call) => Some(call)
    case Selecting(call) => Some(call)
    case _ => None
  }

  predicate HasTimedOut(q: Q.Consumer) {
    q.Answered? && q.answer.TimedOut?
  }

  /** The timer never runs out before the open batch has lingered. */
  ghost predicate NotEarly(c: Client) {
    var due := c.b.createdAt + c.cfg.linger;
    && (Looking(c.q.consumer).Some? ==> (Looking(c.q.consumer).value.timed <==> c.b.pc.DrainWait?))
    && (c.b.pc.DrainWait? ==> c.now + c.b.timeout >= due)
    && (c.q.consumer.Selecting? && c.q.consumer.call.timed ==> c.b.timerAt >= due)
    && (HasTimedOut(c.q.consumer) ==> c.b.pc.DrainWait? && c.now >= due)
  }

  /** No open batch is overdue, unless it is already on its way into the channel. */
  ghost predicate NotLate(c: Client) {
    var due := c.b.createdAt + c.cfg.linger;
    && (c.b.open != [] && !c.b.pc.Sealing? ==> c.now <= due)
    && (c.b.pc.DrainWait? && Looking(c.q.consumer).Some? && !Looking(c.q.consumer).value.closing ==>
          if c.q.consumer.Selecting? then c.b.timerAt <= due else c.now + c.b.timeout <= due)
  }

  /** Only waits take time: an open batch ages while the batcher sits in its timed select,
      which it leaves when the timer is due, or while the dispatch channel is full. */
  predicate Prompt(c: Client, e: Event) {
    e.Tick? ==>
      || c.b.open == []
      || c.b.pc.Sealing?
      || (c.b.pc.DrainWait? && c.q.consumer.Selecting? && !c.q.consumer.call.closing && c.now + e.nanos <= c.b.timerAt)
  }

  predicate PromptRun(c: Client, events: seq<Event>) {
    |events| == 0
    || (PromptRun(c, events[..|events| - 1])
        && match Run(c, events[..|events| - 1])
           case None => false
           case Some(m) => Prompt(m, events[|events| - 1]))
  }

  lemma QueueStaysNotEarly(c: Client, e: Q.Event)
    requires NotEarly(c) && PcInv(c) && QueueEnabled(c, e)
    ensures NotEarly(QueueStep(c, e))
  {
    var r := QueueStep(c, e);
    assert r.b.(timerAt := c.b.timerAt) == c.b && r.now == c.now && r.cfg == c.cfg;
    if !Q.ByConsumer(e) {
      assert r.q.consumer == c.q.consumer;
    }
    hide MustFlushFirst;
  }

  lemma QueueStaysNotLate(c: Client, e: Q.Event)
    requires NotLate(c) && PcInv(c) && QueueEnabled(c, e)
    ensures NotLate(QueueStep(c, e))
  {
    var r := QueueStep(c, e);
    assert r.b.(timerAt := c.b.timerAt) == c.b && r.now == c.now && r.cfg == c.cfg;
    if !Q.ByConsumer(e) {
      assert r.q.consumer == c.q.consumer;
    }
    hide MustFlushFirst;
  }

  lemma BatchStaysNotEarly(c: Client)
    requires NotEarly(c) && PcInv(c) && BatchEnabled(c)
    ensures NotEarly(BatchStep(c))
  {
    hide MustFlushFirst, BatchSize, IsFull, AttachHandle;
  }

  lemma BatchStaysNotLate(c: Client)
    requires NotLate(c) && PcInv(c) && BatchEnabled(c) && c.cfg.linger >= 0
    ensures NotLate(BatchStep(c))
  {
    hide MustFlushFirst, BatchSize, IsFull, AttachHandle;
  }

  lemma StepStaysNotEarly(c: Client, e: Event)
    requires NotEarly(c) && PcInv(c) && Enabled(c, e)
    ensures NotEarly(Step(c, e))
  {
    match e {
      case Queue(q) => QueueStaysNotEarly(c, q);
      case Batch => BatchStaysNotEarly(c);
      case _ =>
    }
    hide PcInv, QueueStep, QueueEnabled, BatchStep, BatchEnabled, WorkerStep, WorkerEnabled;
  }

  lemma StepStaysNotLate(c: Client, e: Event)
    requires NotLate(c) && PcInv(c) && Enabled(c, e) && Prompt(c, e) && c.cfg.linger >= 0
    ensures NotLate(Step(c, e))
  {
    match e {
      case Queue(q) => QueueStaysNotLate(c, q);
      case Batch => BatchStaysNotLate(c);
      case _ =>
    }
    hide PcInv, QueueStep, QueueEnabled, BatchStep, BatchEnabled, WorkerStep, WorkerEnabled;
  }

  lemma {:induction false} RunStaysNotEarly(c: Client, events: seq<Event>)
    requires BatcherInv(c) && NotEarly(c) && Run(c, events).Some?
    ensures BatcherInv(Run(c, events).value) && NotEarly(Run(c, events).value)
  {
    if |events| == 0 {
    } else {
      var front, e := events[..|events| - 1], events[|events| - 1];
      RunStaysNotEarly(c, front);
      StepKeepsBatcher(Run(c, front).value, e);
      StepStaysNotEarly(Run(c, front).value, e);
      hide QueueInv, PackInv, FlowInv, PcInv, EndInv, NotEarly, Step, Enabled;
    }
  }

  lemma {:induction false} RunStaysNotLate(c: Client, events: seq<Event>)
    requires BatcherInv(c) && NotLate(c) && c.cfg.linger >= 0
    requires Run(c, events).Some? && PromptRun(c, events)
    ensures NotLate(Run(c, events).value)
  {
    if |events| == 0 {
    } else {
      var front, e := events[..|events| - 1], events[|events| - 1];
      RunStaysNotLate(c, front);
      RunKeepsBatcher(c, front);
      StepStaysNotLate(Run(c, front).value, e);
      hide QueueInv, PackInv, FlowInv, PcInv, EndInv, NotLate, Step, Enabled, Prompt;
    }
  }

  /** In every run: a batch is flushed before the next submission asks for it only when it
      has lingered, or when nothing can ever follow. */
  lemma FlushIsNeverEarly(c: Client, e: Event)
    requires BatcherInv(c) && NotEarly(c) && Enabled(c, e)
    requires Step(c, e).b.log == c.b.log + [Flush]
    ensures c.now - c.b.createdAt >= c.cfg.linger || Q.IsDrained(c.q)
  {
    assert e.Batch?;
    if c.b.pc.DrainCheck? {
      OpenBatchHasRoom(c);
    } else {
      FlushMeansTimeout(c);
      assert Q.ConsumerSound(c.q);
    }
    hide QueueInv, PackInv, FlowInv, EndInv, BatchSize, MustFlushFirst;
  }

  lemma FlushMeansTimeout(c: Client)
    requires BatchEnabled(c) && BatchStep(c).b.log == c.b.log + [Flush] && !c.b.pc.DrainCheck?
    ensures c.q.consumer.Answered? && !c.q.consumer.answer.Got?
  {
    hide BatchSize, MustFlushFirst, IsFull, AttachHandle;
    assert forall s :: c.b.log + [Arrive(s)] != c.b.log + [Flush] by {
      forall s
        ensures c.b.log + [Arrive(s)] != c.b.log + [Flush]
      {
        assert (c.b.log + [Arrive(s)])[|c.b.log|] != (c.b.log + [Flush])[|c.b.log|];
      }
    }
  }

  /** The select the batcher sits in with a batch open has a timer, set for the moment the
      batch has lingered. */
  ghost predicate TimerFallsDue(c: Client) {
    c.q.consumer.Selecting? && c.b.open != [] && !c.q.consumer.call.closing ==>
      c.q.consumer.call.timed && c.b.timerAt == c.b.createdAt + c.cfg.linger
  }

  /** Before it waits again the batcher flushes a batch of that age, and no younger one. */
  ghost predicate CheckFlushesWhenDue(c: Client) {
    c.b.pc.DrainCheck? && BatchEnabled(c) && c.b.open != [] ==>
      (BatchStep(c).b.log == c.b.log + [Flush] <==> c.now - c.b.createdAt == c.cfg.linger)
  }

  lemma DueAtLinger(c: Client)
    requires BatcherInv(c) && NotEarly(c) && NotLate(c)
    ensures TimerFallsDue(c) && CheckFlushesWhenDue(c)
  {
    if c.b.pc.DrainCheck? {
      OpenBatchHasRoom(c);
      assert |c.b.log| < |c.b.log + [Flush]|;
    }
    hide QueueInv, PackInv, FlowInv, EndInv, BatchSize, MustFlushFirst, AddStep, AnswerStep, SealStep;
  }

  /** Linger is a maximum age. In every run in which only waits take time, an open batch
      is never older than the linger time, however many submissions join it; a flush falls
      exactly on that age; and the batcher waits without a timer only when none is open. */
  lemma LingerIsMaximumAge(cfg: Config, maxQueueSize: nat, producers: nat, workers: nat, events: seq<Event>)
    requires cfg.linger >= 0
    requires var c0 := NewClient(cfg, maxQueueSize, producers, workers);
             Run(c0, events).Some? && PromptRun(c0, events)
    ensures var c := Run(NewClient(cfg, maxQueueSize, producers, workers), events).value;
            && (c.b.open != [] && !c.b.pc.Sealing? ==> c.now - c.b.createdAt <= cfg.linger)
            && (c.b.pc.OuterCall? || c.b.pc.OuterWait? ==> c.b.open == [])
            && (forall e :: Enabled(c, e) && Step(c, e).b.log == c.b.log + [Flush] ==>
                  c.now - c.b.createdAt == cfg.linger || Q.IsDrained(c.q))
            && TimerFallsDue(c) && CheckFlushesWhenDue(c)
  {
    var c0 := NewClient(cfg, maxQueueSize, producers, workers);
    InitBatcher(cfg, maxQueueSize, producers, workers);
    RunKeepsBatcher(c0, events);
    RunStaysNotEarly(c0, events);
    RunStaysNotLate(c0, events);
    var c := Run(c0, events).value;
    DueAtLinger(c);
    forall e | Enabled(c, e) && Step(c, e).b.log == c.b.log + [Flush]
      ensures c.now - c.b.createdAt == cfg.linger || Q.IsDrained(c.q)
    {
      FlushIsNeverEarly(c, e);
      FlushHasABatch(c, e);
    }
    hide Run, Step, Enabled, QueueInv, PackInv, FlowInv, EndInv, NotEarly, MustFlushFirst, TimerFallsDue,
         CheckFlushesWhenDue;
  }

  lemma FlushHasABatch(c: Client, e: Event)
    requires PcInv(c) && Enabled(c, e) && Step(c, e).b.log == c.b.log + [Flush]
    ensures c.b.open != [] && !c.b.pc.Sealing?
  {
    if e.Batch? && !c.b.pc.DrainCheck? {
      FlushMeansTimeout(c);
    }
    hide BatchSize, MustFlushFirst, IsFull, AttachHandle, Place, WorkerStep, WorkerEnabled;
  }

  // ---- when a batch was opened ------------------------------------------------------------

  /** `r`'s open batch is the one that a step from `before` to `after` opened. */
  ghost predicate OpenSince(before: Client, after: Client, r: Client) {
    && r.b.open != [] && after.b.open == [r.b.open[0]]
    && before.now == r.b.createdAt && after.d.sealed == r.d.sealed
    && (before.b.open == [] || r.d.sealed == before.d.sealed + [before.b.open])
  }

  /** The open batch is still the same one, possibly larger. */
  ghost predicate SameBatch(c: Client, r: Client) {
    && c.b.open != [] && c.b.open <= r.b.open
    && r.b.createdAt == c.b.createdAt && r.d.sealed == c.d.sealed
  }

  lemma OpensOrStays(c: Client, e: Event)
    requires PcInv(c) && Enabled(c, e) && Step(c, e).b.open != []
    ensures OpenSince(c, Step(c, e), Step(c, e)) || SameBatch(c, Step(c, e))
  {
    hide MustFlushFirst, BatchSize, IsFull, AttachHandle, WorkerStep, WorkerEnabled, Q.Step, Q.Enabled,
         Q.ConsumerStep, Q.ConsumerEnabled;
  }

  /** Event n of the run opened the batch that is open in `r`. */
  ghost predicate OpenedBy(c: Client, events: seq<Event>, n: nat, r: Client) {
    && n < |events| && Run(c, events[..n]).Some? && Run(c, events[..n + 1]).Some?
    && OpenSince(Run(c, events[..n]).value, Run(c, events[..n + 1]).value, r)
  }

  lemma StaysOpened(c: Client, events: seq<Event>, n: nat, m: Client, r: Client)
    requires |events| > 0 && OpenedBy(c, events[..|events| - 1], n, m) && SameBatch(m, r)
    ensures OpenedBy(c, events, n, r)
  {
    var front := events[..|events| - 1];
    assert front[..n] == events[..n] && front[..n + 1] == events[..n + 1];
    hide Run;
  }

  lemma LastStep(c: Client, events: seq<Event>)
    requires Run(c, events).Some?
    ensures |events| == 0 ==> Run(c, events).value == c
    ensures |events| > 0 ==>
              var m := Run(c, events[..|events| - 1]);
              m.Some? && Enabled(m.value, events[|events| - 1])
              && Run(c, events).value == Step(m.value, events[|events| - 1])
  {
    hide Step, Enabled;
  }

  /** What the last event of a run has done to the open batch. */
  lemma LastEvent(c: Client, events: seq<Event>)
    requires BatcherInv(c) && |events| > 0 && Run(c, events).Some? && Run(c, events).value.b.open != []
    ensures Run(c, events[..|events| - 1]).Some?
    ensures var m, r := Run(c, events[..|events| - 1]).value, Run(c, events).value;
            OpenedBy(c, events, |events| - 1, r) || SameBatch(m, r)
  {
    var n := |events| - 1;
    LastStep(c, events);
    assert events[..n + 1] == events;
    var m := Run(c, events[..n]).value;
    RunKeepsBatcher(c, events[..n]);
    assert PcInv(m);
    hide Run, Step, Enabled, BatcherInv, PcInv, OpenSince, SameBatch;
    OpensOrStays(m, events[n]);
  }

  /** `createdAt` is the time at which the open batch got its first submission: some event of
      the run put it there, and every later one has left the batch open. */
  lemma {:induction false} OpenedAt(c: Client, events: seq<Event>) returns (n: nat)
    requires BatcherInv(c) && c.b.open == [] && Run(c, events).Some? && Run(c, events).value.b.open != []
    ensures OpenedBy(c, events, n, Run(c, events).value)
    decreases |events|
  {
    LastStep(c, events);
    assert |events| > 0;
    LastEvent(c, events);
    n := |events| - 1;
    var m, r := Run(c, events[..n]).value, Run(c, events).value;
    assert SameBatch(m, r) ==> m.b.open != [];
    hide *;
    if !OpenedBy(c, events, n, r) {
      n := OpenedAt(c, events[..n]);
      StaysOpened(c, events, n, m, r);
    }
  }

  /** Put in times of the run alone: while a batch is open and not on its way into the
      channel, no more than the linger time has passed since its first submission was put
      into it. */
  lemma LingerSincePlaced(cfg: Config, maxQueueSize: nat, producers: nat, workers: nat, events: seq<Event>)
    returns (n: nat)
    requires cfg.linger >= 0
    requires var c0 := NewClient(cfg, maxQueueSize, producers, workers);
             Run(c0, events).Some? && PromptRun(c0, events)
    requires var c := Run(NewClient(cfg, maxQueueSize, producers, workers), events).value;
             c.b.open != [] && !c.b.pc.Sealing?
    ensures var c0 := NewClient(cfg, maxQueueSize, producers, workers);
            && OpenedBy(c0, events, n, Run(c0, events).value)
            && Run(c0, events).value.now - Run(c0, events[..n]).value.now <= cfg.linger
  {
    InitBatcher(cfg, maxQueueSize, producers, workers);
    LingerIsMaximumAge(cfg, maxQueueSize, producers, workers, events);
    hide BatcherInv, PromptRun, Run;
    n := OpenedAt(NewClient(cfg, maxQueueSize, producers, workers), events);
  }
}
