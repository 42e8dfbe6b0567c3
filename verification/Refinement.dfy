/** What batching amounts to over whole runs: one fold over the accepted submissions, and a
    flush exactly when the open batch has lingered long enough. */
module Refinement {
  import Encoding
  import Q = QueueSteps
  import QS = QueueSafety
  import opened Seqs
  import opened Submissions
  import opened Packing
  import opened Pipeline
  import opened PipelineSafety

  lemma {:induction false} RunKeepsBatcher(c: Client, events: seq<Event>)
    requires BatcherInv(c) && Run(c, events).Some?
    ensures BatcherInv(Run(c, events).value) && Run(c, events).value.cfg == c.cfg
  {
    if |events| == 0 {
    } else {
      var front, e := events[..|events| - 1], events[|events| - 1];
      RunKeepsBatcher(c, front);
      StepKeepsBatcher(Run(c, front).value, e);
      StepKeepsConfig(Run(c, front).value, e);
      hide BatcherInv, Step, Enabled;
    }
  }

  lemma StepKeepsConfig(c: Client, e: Event)
    requires BatcherInv(c) && Enabled(c, e)
    ensures Step(c, e).cfg == c.cfg
  {
    if e.Batch? {
      BatchTouchesQueue(c);
    }
    hide BatchStep, Q.Step, Q.Enabled, WorkerStep;
  }

  // ---- the queue's layer above the fold's layer -------------------------------------

  /** Accepted submissions on their way to the batcher, oldest first. */
  function OnTheWay(c: Client): seq<Submission> {
    Rest(c.b.pc) + InAnswer(c.q.consumer) + Q.InHand(c.q.consumer) + Q.PendingSeq(c.q) + c.q.items
  }

  /** What the log holds and what is still on its way is what was accepted, in order. */
  lemma LogIsAPrefix(c: Client)
    requires FlowInv(c) && Q.NothingLost(c.q)
    ensures Arrivals(c.b.log) + OnTheWay(c) == c.q.accepted
  {
    hide Arrivals, Rest, InAnswer, Q.InHand, Q.PendingSeq;
    Regroup(Arrivals(c.b.log), Rest(c.b.pc), InAnswer(c.q.consumer),
            Q.InHand(c.q.consumer), Q.PendingSeq(c.q), c.q.items);
  }

  lemma Regroup<T>(a: seq<T>, b: seq<T>, c: seq<T>, d: seq<T>, e: seq<T>, f: seq<T>)
    ensures a + (b + c + d + e + f) == (a + b + c) + d + e + f
  {}

  lemma LogIsAdmitted(c: Client)
    requires BatcherInv(c)
    ensures Admitted(c.cfg.mode, c.cfg.batchBytes, Arrivals(c.b.log))
  {
    LogIsAPrefix(c);
    assert Admitted(c.cfg.mode, c.cfg.batchBytes, c.q.accepted);
    hide Arrivals, Fold, Admitted, OnTheWay;
    AdmittedTail(c.cfg.mode, c.cfg.batchBytes, Arrivals(c.b.log), OnTheWay(c));
  }

  /** Two layers, one fold. However `collectBatch` chunked the stream, whatever it pushed
      back and whoever enqueued when: the batches are one fold of the packing rule over the
      accepted submissions in order, and every one of them fits. */
  lemma BatchingIsOneFold(cfg: Config, maxQueueSize: nat, producers: nat, workers: nat, events: seq<Event>)
    requires Run(NewClient(cfg, maxQueueSize, producers, workers), events).Some?
    ensures var c := Run(NewClient(cfg, maxQueueSize, producers, workers), events).value;
            && View(c.d, c.b) == Fold(cfg.mode, cfg.batchBytes, EMPTY, c.b.log)
            && Arrivals(c.b.log) + OnTheWay(c) == c.q.accepted
            && GoodPacker(cfg.mode, cfg.batchBytes, View(c.d, c.b))
            && (forall k :: 0 <= k < |c.d.sealed| ==> GoodBatch(cfg.mode, cfg.batchBytes, c.d.sealed[k]))
  {
    InitBatcher(cfg, maxQueueSize, producers, workers);
    RunKeepsBatcher(NewClient(cfg, maxQueueSize, producers, workers), events);
    var c := Run(NewClient(cfg, maxQueueSize, producers, workers), events).value;
    ViewIsGood(c);
    LogIsAPrefix(c);
    hide Run, NewClient, GoodBatch, Fold, Arrivals, OnTheWay, GoodPacker;
  }

  lemma ViewIsGood(c: Client)
    requires BatcherInv(c)
    ensures GoodPacker(c.cfg.mode, c.cfg.batchBytes, View(c.d, c.b))
    ensures forall k :: 0 <= k < |c.d.sealed| ==> GoodBatch(c.cfg.mode, c.cfg.batchBytes, c.d.sealed[k])
  {
    LogIsAdmitted(c);
    FoldRespectsLimit(c.cfg.mode, c.cfg.batchBytes, c.b.log);
    hide Fold, Arrivals, Admitted, GoodBatch, QueueInv, FlowInv, PcInv, EndInv;
    var view := View(c.d, c.b);
    assert forall k :: 0 <= k < |c.d.sealed| ==> c.d.sealed[k] == view.sealed[k];
  }

  /** The batcher's own test for a batch that is already full never fires. */
  lemma OpenBatchHasRoom(c: Client)
    requires BatcherInv(c) && c.b.pc.DrainCheck?
    ensures !(c.cfg.batchBytes > 0 && c.cfg.batchBytes - BatchSize(c.cfg.mode, c.b.open) <= 0)
  {
    ViewIsGood(c);
    hide Fold, Arrivals, QueueInv, FlowInv, PcInv, EndInv, BatchSize, WellSized;
  }

  /** In every run, from its start or from any flush marker up to the next one or up to now,
      the batcher spends the fewest batches any order-preserving partition of that stretch
      of accepted submissions could. */
  lemma FewestInEveryRun(c: Client, start: seq<Token>, subs: seq<Submission>, end: seq<Token>,
                         parts: seq<seq<Submission>>)
    requires BatcherInv(c) && c.b.log == start + Tokens(subs) + end
    requires start == [] || start[|start| - 1] == Flush
    requires end == [] || end == [Flush]
    requires IsPartition(c.cfg.mode, c.cfg.batchBytes, subs, parts)
    ensures var p := Fold(c.cfg.mode, c.cfg.batchBytes, EMPTY, start);
            p.open == [] && p.sealed <= View(c.d, c.b).sealed && Cost(View(c.d, c.b)) <= |p.sealed| + |parts|
  {
    LogIsAdmitted(c);
    assert PackInv(c);
    hide BatcherInv, IsPartition, Tokens, View, Fold, Cost;
    StretchCosts(c.cfg.mode, c.cfg.batchBytes, start, subs, end, parts);
  }

  lemma StretchCosts(mode: Encoding.Mode, limit: int, start: seq<Token>, subs: seq<Submission>, end: seq<Token>,
                     parts: seq<seq<Submission>>)
    requires Admitted(mode, limit, Arrivals(start + Tokens(subs) + end))
    requires start == [] || start[|start| - 1] == Flush
    requires end == [] || end == [Flush]
    requires IsPartition(mode, limit, subs, parts)
    ensures var p, r := Fold(mode, limit, EMPTY, start), Fold(mode, limit, EMPTY, start + Tokens(subs) + end);
            p.open == [] && p.sealed <= r.sealed && Cost(r) <= |p.sealed| + |parts|
  {
    hide IsPartition, Tokens, Fold, Cost, Arrivals, Admitted;
    StretchIsAdmitted(mode, limit, start, subs, end);
    FewestSinceFlush(mode, limit, start, subs, parts);
    assert start + Tokens(subs) + end == start + (Tokens(subs) + end);
    SealedOnlyGrow(mode, limit, start, Tokens(subs) + end);
    if end == [] {
      assert start + Tokens(subs) + end == start + Tokens(subs);
    } else {
      FlushCostsNothing(mode, limit, start + Tokens(subs));
    }
  }

  lemma StretchIsAdmitted(mode: Encoding.Mode, limit: int, start: seq<Token>, subs: seq<Submission>, end: seq<Token>)
    requires Admitted(mode, limit, Arrivals(start + Tokens(subs) + end)) && (end == [] || end == [Flush])
    ensures Admitted(mode, limit, subs)
  {
    assert Arrivals(end) == [] by {
      assert end == [Flush] ==> end[..0] == [];
    }
    ArrivalsSplit(start + Tokens(subs), end);
    ArrivalsSplit(start, Tokens(subs));
    ArrivalsOfTokens(subs);
    hide Fold, Admitted, Tokens, Arrivals;
    assert Arrivals(start + Tokens(subs)) + [] == Arrivals(start) + subs;
    AdmittedTail(mode, limit, Arrivals(start), subs);
  }

  lemma AdmittedTail(mode: Encoding.Mode, limit: int, a: seq<Submission>, b: seq<Submission>)
    requires Admitted(mode, limit, a + b)
    ensures Admitted(mode, limit, a) && Admitted(mode, limit, b)
  {
    hide WellSized;
    assert forall i :: 0 <= i < |a| ==> a[i] == (a + b)[i];
    assert forall i :: 0 <= i < |b| ==> b[i] == (a + b)[|a| + i];
  }

  lemma {:induction false} ArrivalsSplit(a: seq<Token>, b: seq<Token>)
    ensures Arrivals(a + b) == Arrivals(a) + Arrivals(b)
  {
    if |b| == 0 {
      assert a + b == a;
    } else {
      var front, t := b[..|b| - 1], b[|b| - 1];
      ArrivalsSplit(a, front);
      assert a + b == (a + front) + [t];
      FoldAppend(Encoding.CSV, 0, EMPTY, a + front, t);
      if t.Arrive? {
        assert Arrivals(a) + (Arrivals(front) + [t.s]) == (Arrivals(a) + Arrivals(front)) + [t.s];
      }
    }
  }
}
