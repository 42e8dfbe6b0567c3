/** What the client's goroutines wait for, and nothing else: in every run each of them can
    take its next step except in the waits named here. */
module Blocking {
  import Q = QueueSteps
  import QS = QueueSafety
  import opened Seqs
  import opened Submissions
  import opened Packing
  import opened DeliveryLoops
  import opened Pipeline
  import opened PipelineSafety
  import opened Linger
  import opened WorkerSafety
  import opened Settlement
  import opened Shutdown

  // ---- the batcher -----------------------------------------------------------------------

  /** The batcher waits for room: the dispatch channel is as full as it was made. */
  predicate WaitsForRoom(c: Client) {
    c.b.pc.Sealing? && |c.d.sealed| - |c.w.owner| >= c.cfg.dispatchSize
  }

  lemma WaitsAreClosed(c: Client, e: Event)
    requires PcInv(c) && IsBatchers(e) && Enabled(c, e)
    ensures !c.b.pc.Finished? && !WaitsForRoom(c) && !WaitsForItems(c)
  {
    hide MustFlushFirst, WellSized;
  }

  /** In every run the batcher is kept from going on exactly when it has finished, waits for
      a first submission, or waits for room in the dispatch channel. */
  lemma BatcherBlocksIff(cfg: Config, maxQueueSize: nat, producers: nat, workers: nat, events: seq<Event>)
    requires Run(NewClient(cfg, maxQueueSize, producers, workers), events).Some?
    ensures var c := Run(NewClient(cfg, maxQueueSize, producers, workers), events).value;
            (forall e :: IsBatchers(e) ==> !Enabled(c, e)) <==>
              c.b.pc.Finished? || WaitsForRoom(c) || WaitsForItems(c)
  {
    RunKeepsAll(cfg, maxQueueSize, producers, workers, events);
    var c := Run(NewClient(cfg, maxQueueSize, producers, workers), events).value;
    assert PcInv(c) && QueueInv(c) && CallInv(c);
    hide RunInv, Run, NewClient, QueueInv, MustFlushFirst;
    ReleaseIsOpenIn(c);
    forall e | IsBatchers(e) && Enabled(c, e)
      ensures !c.b.pc.Finished? && !WaitsForRoom(c) && !WaitsForItems(c)
    {
      WaitsAreClosed(c, e);
    }
    if !c.b.pc.Finished? && !WaitsForRoom(c) && !WaitsForItems(c) {
      if Waits(c.b.pc) && !c.q.consumer.Answered? {
        var e := ConsumerGoesOn(c);
      } else {
        assert IsBatchers(Batch) && Enabled(c, Batch);
      }
    }
  }

  lemma ReleaseIsOpenIn(c: Client)
    requires QueueInv(c)
    ensures c.q.consumer.Releasing? ==> c.q.slots > 0 && c.q.consumer.owed > 0
  {
    ReleaseIsOpen(c.q);
    hide Q.Inv;
  }

  // ---- the producers -----------------------------------------------------------------------

  /** A step of producer p other than its time running out. */
  predicate IsProducers(e: Q.Event, p: nat) {
    Q.ByProducer(e) && !e.EnqueueTimeout? && e.p == p
  }

  /** What admission lets through, under the next number. */
  predicate LetThrough(c: Client, s: Submission) {
    && s.id == c.q.nextId && WellSized(c.cfg.mode, s)
    && (c.cfg.batchBytes > 0 ==> s.standaloneByteSize <= c.cfg.batchBytes)
  }

  /** Every call that admission lets through can begin, and one that has begun is kept from
      going on exactly while it waits for a token on an open queue with none left. */
  lemma ProducerBlocksIff(c: Client, p: nat)
    requires QueueInv(c) && p < |c.q.producers|
    ensures c.q.producers[p].Idle? ==>
              forall s :: LetThrough(c, s) ==> Enabled(c, Queue(Q.BeginEnqueue(p, s)))
    ensures !c.q.producers[p].Idle? ==>
              ((forall e :: IsProducers(e, p) ==> !Enabled(c, Queue(e))) <==>
               c.q.producers[p].Choosing? && c.q.slots >= c.q.maxRequests && !c.q.closed)
  {
    QS.NothingBlocks(c.q);
    hide WellSized, Q.Inv;
    match c.q.producers[p] {
      case Idle =>
      case Choosing(_) =>
        assert IsProducers(Q.AcquireSlot(p), p) && IsProducers(Q.EnqueueClosed(p), p);
      case HasToken(_) => assert IsProducers(Q.WriteItem(p), p);
      case Refunding(_) => assert IsProducers(Q.RefundSlot(p), p);
    }
  }

  // ---- the workers -------------------------------------------------------------------------

  /** An upload worker is kept from going on exactly when it has stopped, or waits for a
      batch while the dispatch channel is empty and still open. */
  lemma WorkerBlocksIff(c: Client, i: nat)
    requires i < |c.w.pcs|
    ensures (forall e :: IsWorkers(e, i) ==> !Enabled(c, e)) <==> c.w.pcs[i].Stopped? || WaitsForBatch(c, i)
  {
    if !c.w.pcs[i].Stopped? && !WaitsForBatch(c, i) {
      var e := WorkerGoesOn(c, i);
    }
  }

  // ---- the dispatch channel ----------------------------------------------------------------

  /** In every run the dispatch channel holds at most as many batches as it was made for, and
      every batch taken had been sent. */
  lemma {:induction false} ChannelIsBounded(cfg: Config, maxQueueSize: nat, producers: nat, workers: nat,
                                            events: seq<Event>)
    requires Run(NewClient(cfg, maxQueueSize, producers, workers), events).Some?
    ensures var c := Run(NewClient(cfg, maxQueueSize, producers, workers), events).value;
            && c.cfg == cfg
            && |c.w.owner| <= |c.d.sealed| <= |c.w.owner| + cfg.dispatchSize
  {
    var c0 := NewClient(cfg, maxQueueSize, producers, workers);
    if |events| == 0 {
      assert Run(c0, events).value == c0;
    } else {
      var front, e := events[..|events| - 1], events[|events| - 1];
      ChannelIsBounded(cfg, maxQueueSize, producers, workers, front);
      RunKeepsAll(cfg, maxQueueSize, producers, workers, front);
      var m := Run(c0, front).value;
      assert PcInv(m);
      hide RunInv, PcInv, NewClient, Step, Enabled;
      ChannelStep(m, e);
    }
  }

  lemma ChannelStep(c: Client, e: Event)
    requires PcInv(c) && Enabled(c, e)
    requires |c.w.owner| <= |c.d.sealed| <= |c.w.owner| + c.cfg.dispatchSize
    ensures var r := Step(c, e);
            r.cfg == c.cfg && |r.w.owner| <= |r.d.sealed| <= |r.w.owner| + c.cfg.dispatchSize
  {
    hide MustFlushFirst, BatchSize, Place, Q.Step, Q.Enabled, Q.ConsumerStep, Q.ConsumerEnabled, AnyCallback;
  }
}
