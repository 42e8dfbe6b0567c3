/** What the batcher asks the queue for, and how far an answer can overshoot it. */
module TopUp {
  import Q = QueueSteps
  import Encoding
  import opened Seqs
  import opened Submissions
  import opened Packing
  import opened Pipeline
  import opened PipelineSafety
  import opened Refinement

  /** The byte limit of the dequeue call in progress. */
  function AskedFor(q: Q.Consumer): int {
    match q
    case Outside => 0
    case TryPending(call) => call.maxBytes
    case TryItem(call) => call.maxBytes
    case Selecting(call) => call.maxBytes
    case Collecting(maxBytes, _, _) => maxBytes
    case PushingBack(maxBytes, _, _, _) => maxBytes
    case Releasing(maxBytes, _, _, _) => maxBytes
    case Answered(maxBytes, _) => maxBytes
  }

  /** A call made while no batch is open asks for a whole body, any other for what is left of
      the open one; and that never comes to nothing, which would mean no limit. */
  ghost predicate AsksForRoom(c: Client) {
    && (c.b.pc.OuterWait? ==> AskedFor(c.q.consumer) == c.cfg.batchBytes)
    && (c.b.pc.DrainWait? ==>
          && AskedFor(c.q.consumer) == c.cfg.batchBytes - BatchSize(c.cfg.mode, c.b.open)
          && (c.cfg.batchBytes > 0 ==> AskedFor(c.q.consumer) > 0))
  }

  lemma CallKeepsLimit(q: Q.Queue, e: Q.Event)
    requires Q.Enabled(q, e) && !e.BeginDequeue? && !e.TakeAnswer?
    ensures AskedFor(Q.Step(q, e).consumer) == AskedFor(q.consumer)
  {
    hide WellSized;
  }

  lemma DrainAsksForRoom(c: Client)
    requires c.b.pc.DrainCheck? && c.q.consumer.Outside?
    requires !(c.cfg.batchBytes > 0 && c.cfg.batchBytes - BatchSize(c.cfg.mode, c.b.open) <= 0)
    ensures AsksForRoom(DrainStep(c))
  {
    hide BatchSize;
  }

  lemma OthersDoNotAsk(c: Client)
    requires BatchEnabled(c) && !c.b.pc.DrainCheck?
    ensures AsksForRoom(BatchStep(c))
  {
    hide BatchSize, MustFlushFirst, IsFull, AttachHandle, Q.ConsumerEnabled;
  }

  lemma BatchAsksForRoom(c: Client)
    requires BatcherInv(c) && BatchEnabled(c)
    ensures AsksForRoom(BatchStep(c))
  {
    if c.b.pc.DrainCheck? {
      OpenBatchHasRoom(c);
      DrainAsksForRoom(c);
    } else {
      OthersDoNotAsk(c);
    }
    hide BatcherInv, BatchSize, DrainStep, AddStep, AnswerStep, SealStep, AsksForRoom;
  }

  lemma StepKeepsRoom(c: Client, e: Event)
    requires BatcherInv(c) && AsksForRoom(c) && Enabled(c, e)
    ensures AsksForRoom(Step(c, e))
  {
    if e.Queue? {
      CallKeepsLimit(c.q, e.e);
    } else if e.Batch? {
      BatchAsksForRoom(c);
    }
    hide BatcherInv, BatchSize, Q.Step, Q.Enabled, BatchStep, BatchEnabled, WorkerStep, WorkerEnabled, AskedFor;
  }

  lemma {:induction false} RunKeepsRoom(c: Client, events: seq<Event>)
    requires BatcherInv(c) && AsksForRoom(c) && Run(c, events).Some?
    ensures AsksForRoom(Run(c, events).value)
  {
    if |events| == 0 {
    } else {
      var front, e := events[..|events| - 1], events[|events| - 1];
      RunKeepsRoom(c, front);
      RunKeepsBatcher(c, front);
      StepKeepsRoom(Run(c, front).value, e);
      hide BatcherInv, AsksForRoom, Step, Enabled;
    }
  }

  lemma {:induction false} RecordsJoin(a: seq<Submission>, b: seq<Submission>)
    ensures RecordsOf(a + b) == RecordsOf(a) + RecordsOf(b)
  {
    if |b| == 0 {
      assert a + b == a;
    } else {
      var front, last := b[..|b| - 1], b[|b| - 1];
      RecordsJoin(a, front);
      assert a + b == (a + front) + [last] && b == front + [last];
      RecordsAppend(a + front, last);
      RecordsAppend(front, last);
    }
  }

  /** Joining two groups into one body costs one separator more in CSV and, since only one
      pair of brackets is left, one byte less in JSON. */
  lemma SizeOfBoth(mode: Encoding.Mode, open: seq<Submission>, subs: seq<Submission>)
    requires AllWellSized(mode, open) && AllWellSized(mode, subs) && |open| > 0 && |subs| > 0
    ensures BatchSize(mode, open + subs) ==
            BatchSize(mode, open) + BatchSize(mode, subs) + (if mode.CSV? then 1 else -1)
  {
    RecordsJoin(open, subs);
    RecordsNonEmpty(mode, open);
    RecordsNonEmpty(mode, subs);
    var a, b := RecordsOf(open), RecordsOf(subs);
    Encoding.BodyGrowth(mode, a, b);
    Encoding.BodyLength(mode, b);
    hide WellSized, RecordsOf, Encoding.Body, Encoding.PayloadBytes;
  }

  /** In every run: the submissions brought to a batcher with no open batch fit one body. A
      group brought to an open one overshoots the limit by at most one byte in CSV, and stays
      below it in JSON, unless it is a single submission. */
  lemma TopUpOverrun(cfg: Config, maxQueueSize: nat, producers: nat, workers: nat, events: seq<Event>)
    requires cfg.batchBytes > 0
    requires Run(NewClient(cfg, maxQueueSize, producers, workers), events).Some?
    requires var q := Run(NewClient(cfg, maxQueueSize, producers, workers), events).value.q.consumer;
             q.Answered? && q.answer.Got?
    ensures var c := Run(NewClient(cfg, maxQueueSize, producers, workers), events).value;
            var subs := c.q.consumer.answer.subs;
            && (c.b.open == [] ==> BatchSize(cfg.mode, subs) <= cfg.batchBytes)
            && (c.b.open != [] && |subs| > 1 ==>
                  BatchSize(cfg.mode, c.b.open + subs) <= cfg.batchBytes + if cfg.mode.CSV? then 1 else -1)
  {
    var c0 := NewClient(cfg, maxQueueSize, producers, workers);
    InitBatcher(cfg, maxQueueSize, producers, workers);
    RunKeepsBatcher(c0, events);
    RunKeepsRoom(c0, events);
    AnswerFits(Run(c0, events).value);
    hide BatcherInv, AsksForRoom, Run, BatchSize;
  }

  lemma OpenIsWellSized(c: Client)
    requires BatcherInv(c) && !c.b.pc.Sealing?
    ensures AllWellSized(c.cfg.mode, c.b.open)
  {
    ViewIsGood(c);
    hide QueueInv, FlowInv, PcInv, EndInv, PackInv, BatchSize, WellSized;
  }

  /** A lone submission fits, for the admission code let it through. */
  lemma SingleFits(c: Client)
    requires BatcherInv(c) && c.q.consumer.Answered? && c.q.consumer.answer.Got? && c.cfg.batchBytes > 0
    requires |c.q.consumer.answer.subs| == 1
    ensures BatchSize(c.cfg.mode, c.q.consumer.answer.subs) <= c.cfg.batchBytes
  {
    var s := c.q.consumer.answer.subs[0];
    var n := |Arrivals(c.b.log) + Rest(c.b.pc)|;
    assert Q.NothingLost(c.q) && Q.ConsumerSound(c.q) && AllFit(c.cfg.batchBytes, c.q);
    assert c.q.delivered[n] == s && c.q.accepted[n] == s;
    RecordsOne(s);
    assert c.q.consumer.answer.subs == [s] && WellSized(c.q.mode, s);
    hide PackInv, PcInv, EndInv, Arrivals, Q.SlotsAccounted, Q.ProducersSound, Encoding.Body, RecordsOf;
  }

  lemma AnswerFits(c: Client)
    requires BatcherInv(c) && AsksForRoom(c) && c.cfg.batchBytes > 0
    requires c.q.consumer.Answered? && c.q.consumer.answer.Got?
    ensures var subs := c.q.consumer.answer.subs;
            && (c.b.open == [] ==> BatchSize(c.cfg.mode, subs) <= c.cfg.batchBytes)
            && (c.b.open != [] && |subs| > 1 ==>
                  BatchSize(c.cfg.mode, c.b.open + subs) <= c.cfg.batchBytes + if c.cfg.mode.CSV? then 1 else -1)
  {
    var subs := c.q.consumer.answer.subs;
    assert Q.ConsumerSound(c.q) && PcInv(c) && AllFit(c.cfg.batchBytes, c.q);
    OpenIsWellSized(c);
    hide BatcherInv, MustFlushFirst, BatchSize, WellSized;
    if c.b.open != [] {
      SizeOfBoth(c.cfg.mode, c.b.open, subs);
    } else if |subs| == 1 {
      SingleFits(c);
    }
  }
}
