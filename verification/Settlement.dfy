/** The end of every run: each accepted submission settled exactly once. */
module Settlement {
  import Q = QueueSteps
  import QS = QueueSafety
  import QR = QueueReplies
  import opened Seqs
  import opened Submissions
  import opened Packing
  import opened DeliveryLoops
  import opened Pipeline
  import opened PipelineSafety
  import opened Refinement
  import opened Attachment
  import opened WorkerSafety

  ghost predicate ClientInv(c: Client) {
    BatcherInv(c) && HandleInv(c) && WorkerInv(c.d, c.w)
  }

  /** The batcher only ever adds batches, and none after closing the channel. */
  lemma BatcherOnlyAppends(c: Client)
    requires PcInv(c) && EndInv(c) && BatchEnabled(c)
    ensures !c.d.closed && c.d.sealed <= BatchStep(c).d.sealed && BatchStep(c).w == c.w
  {
    BatchTouchesQueue(c);
    hide MustFlushFirst, BatchSize, Place, FlushThen, Q.ConsumerStep, Q.IsDrained;
  }

  lemma StepKeepsClient(c: Client, e: Event)
    requires ClientInv(c) && Enabled(c, e)
    ensures ClientInv(Step(c, e))
  {
    StepKeepsBatcher(c, e);
    StepKeepsHandles(c, e);
    match e {
      case Queue(_) =>
      case Tick(_) =>
      case Batch =>
        BatcherOnlyAppends(c);
        hide BatchStep, HandleInv, WorkerInv;
        MoreBatches(c.d, BatchStep(c).d, c.w);
      case _ =>
        StepKeepsWorkers(c.d, c.w, e);
    }
    hide BatcherInv, HandleInv, WorkerInv, BatchStep, WorkerStep, QueueStep;
  }

  lemma InitClient(cfg: Config, maxQueueSize: nat, producers: nat, workers: nat)
    ensures ClientInv(NewClient(cfg, maxQueueSize, producers, workers))
  {
    InitBatcher(cfg, maxQueueSize, producers, workers);
    hide BatcherInv;
  }

  lemma {:induction false} RunKeepsClient(c: Client, events: seq<Event>)
    requires ClientInv(c) && Run(c, events).Some?
    ensures ClientInv(Run(c, events).value)
  {
    if |events| == 0 {
    } else {
      var front, e := events[..|events| - 1], events[|events| - 1];
      RunKeepsClient(c, front);
      StepKeepsClient(Run(c, front).value, e);
      hide ClientInv, Step, Enabled;
    }
  }

  /** A result, once there, is what every later look at that batch finds. */
  lemma {:induction false} ResultsAreFinal(c: Client, events: seq<Event>, k: nat)
    requires ClientInv(c) && Run(c, events).Some? && k in c.w.completions
    ensures var r := Run(c, events).value; k in r.w.completions && r.w.completions[k] == c.w.completions[k]
  {
    if |events| == 0 {
    } else {
      var front, e := events[..|events| - 1], events[|events| - 1];
      ResultsAreFinal(c, front, k);
      RunKeepsClient(c, front);
      StepKeepsResult(Run(c, front).value, e, k);
      hide ClientInv, Step, Enabled;
    }
  }

  lemma StepKeepsResult(c: Client, e: Event, k: nat)
    requires BatcherInv(c) && Enabled(c, e) && k in c.w.completions
    ensures k in Step(c, e).w.completions && Step(c, e).w.completions[k] == c.w.completions[k]
  {
    if e.Batch? {
      BatchTouchesQueue(c);
    } else if !e.Queue? && !e.Tick? {
      ResultIsFinal(c.d, c.w, e, k);
    }
    hide BatchStep, WorkerStep, Q.Step, Q.Enabled;
  }

  /** What a submission's handle can report: the result of its batch, once there is one. */
  function HandleResult(c: Client, id: nat): Option<DeliveryResult> {
    if id in c.b.handles && c.b.handles[id] in c.w.completions then Some(c.w.completions[c.b.handles[id]]) else None
  }

  lemma PlacedIsLogged(c: Client)
    requires PackInv(c)
    ensures Concat(c.d.sealed + [c.b.open]) == Arrivals(c.b.log)
  {
    FoldKeepsEverything(c.cfg.mode, c.cfg.batchBytes, c.b.log);
    ConcatAppend(c.d.sealed, c.b.open);
    hide Fold, Arrivals, Concat;
    assert Concat(c.d.sealed + [c.b.open]) + [] == Concat(c.d.sealed + [c.b.open]);
  }

  /** An attached handle names a batch that does hold its submission. */
  lemma HandleMeansPlaced(c: Client, id: nat) returns (k: nat, j: nat)
    requires BatcherInv(c) && HandleInv(c) && id in c.b.handles
    ensures k == c.b.handles[id] <= |c.d.sealed|
    ensures k < |c.d.sealed| ==> j < |c.d.sealed[k]| && c.d.sealed[k][j].id == id
  {
    PlacedIsLogged(c);
    var batches := c.d.sealed + [c.b.open];
    assert HasId(Arrivals(c.b.log), id) && AttachedTo(batches, c.b.handles);
    hide BatcherInv, OnlyPlaced, Concat, Arrivals;
    var i :| 0 <= i < |Arrivals(c.b.log)| && Arrivals(c.b.log)[i].id == id;
    k, j := ConcatFind(batches, i);
  }

  // ---- terminal states ------------------------------------------------------------------

  predicate AllWorkersStopped(w: Workers) {
    |w.pcs| > 0 && forall i: nat :: i < |w.pcs| ==> w.pcs[i].Stopped?
  }

  /** `s` lies in batch k at place j, its handle is that batch's, the batch has its result,
      and the callback of `s`, if any, ran once with it. */
  ghost predicate SettledAt(c: Client, s: Submission, k: nat, j: nat) {
    && k < |c.d.sealed| && j < |c.d.sealed[k]| && c.d.sealed[k][j] == s
    && s.id in c.b.handles && c.b.handles[s.id] == k
    && k in c.w.completions
    && CallCount(c.w.calls, k, j) == (if s.hasCallback then 1 else 0)
    && (forall i :: 0 <= i < |c.w.calls| && c.w.calls[i].k == k ==> c.w.calls[i].result == c.w.completions[k])
  }

  lemma EndIsDrained(c: Client)
    requires BatcherInv(c) && c.d.closed
    ensures Concat(c.d.sealed) == c.q.accepted && c.b.open == []
  {
    FoldKeepsEverything(c.cfg.mode, c.cfg.batchBytes, c.b.log);
    assert View(c.d, c.b) == Packer(c.d.sealed, []);
    LogIsAPrefix(c);
    assert OnTheWay(c) == [];
    hide Fold, Arrivals, QueueInv, MustFlushFirst, OnTheWay, Concat;
  }

  lemma EachIsSettled(c: Client, i: nat) returns (k: nat, j: nat)
    requires ClientInv(c) && AllWorkersStopped(c.w) && i < |c.q.accepted|
    ensures SettledAt(c, c.q.accepted[i], k, j) && |Concat(c.d.sealed[..k])| + j == i
  {
    assert c.w.pcs[0].Stopped?;
    assert c.d.closed;
    EndIsDrained(c);
    AllStopped(c.d, c.w);
    k, j := ConcatFind(c.d.sealed, i);
    var all := c.d.sealed + [c.b.open];
    assert all[k][j] == c.d.sealed[k][j];
    assert AttachedTo(all, c.b.handles) && CallsTruthful(c.w);
    hide BatcherInv, OnlyPlaced, OwnerInv, CompletionInv, ProgressInv, CallsExact, StopInv, Concat, CallCount;
  }

  /** The i-th accepted submission is settled in exactly one place. */
  ghost predicate SettlesOnce(c: Client, i: nat)
    requires i < |c.q.accepted|
  {
    && (exists k: nat, j: nat :: SettledAt(c, c.q.accepted[i], k, j))
    && (forall k: nat, j: nat :: SettledAt(c, c.q.accepted[i], k, j) ==> |Concat(c.d.sealed[..k])| + j == i)
  }

  lemma OnePlace(c: Client, i: nat, k: nat, j: nat)
    requires QS.IdsDistinct(c.q) && Concat(c.d.sealed) == c.q.accepted && i < |c.q.accepted|
    requires SettledAt(c, c.q.accepted[i], k, j)
    ensures |Concat(c.d.sealed[..k])| + j == i
  {
    ConcatAt(c.d.sealed, k, j);
    var at := |Concat(c.d.sealed[..k])| + j;
    assert c.q.accepted[at].id == c.q.accepted[i].id;
    hide Concat, SettledAt;
  }

  lemma SettledOnce(c: Client, i: nat)
    requires ClientInv(c) && AllWorkersStopped(c.w) && i < |c.q.accepted|
    requires Concat(c.d.sealed) == c.q.accepted
    ensures SettlesOnce(c, i)
  {
    var k, j := EachIsSettled(c, i);
    assert QS.IdsDistinct(c.q);
    hide ClientInv, AllWorkersStopped, QS.IdsDistinct;
    forall k: nat, j: nat | SettledAt(c, c.q.accepted[i], k, j)
      ensures |Concat(c.d.sealed[..k])| + j == i
    {
      OnePlace(c, i, k, j);
    }
  }

  /** The dispatched batches, in order, hold exactly the accepted submissions, in order. Each
      has one place, where its handle carries its batch's only result and its callback ran
      once, with that result. */
  ghost predicate AllSettled(c: Client) {
    && Concat(c.d.sealed) == c.q.accepted
    && (forall i: nat :: i < |c.q.accepted| ==> SettlesOnce(c, i))
  }

  lemma StoppedMeansSettled(c: Client)
    requires ClientInv(c) && AllWorkersStopped(c.w)
    ensures AllSettled(c)
  {
    assert c.w.pcs[0].Stopped?;
    assert c.d.closed;
    EndIsDrained(c);
    hide ClientInv, AllWorkersStopped, SettlesOnce;
    forall i: nat | i < |c.q.accepted|
      ensures SettlesOnce(c, i)
    {
      SettledOnce(c, i);
    }
  }

  /** Exactly-once settlement, in every run that ends with all workers stopped. */
  lemma EverySubmissionSettlesOnce(cfg: Config, maxQueueSize: nat, producers: nat, workers: nat, events: seq<Event>)
    requires Run(NewClient(cfg, maxQueueSize, producers, workers), events).Some?
    requires AllWorkersStopped(Run(NewClient(cfg, maxQueueSize, producers, workers), events).value.w)
    ensures AllSettled(Run(NewClient(cfg, maxQueueSize, producers, workers), events).value)
  {
    hide *;
    InitClient(cfg, maxQueueSize, producers, workers);
    RunKeepsClient(NewClient(cfg, maxQueueSize, producers, workers), events);
    StoppedMeansSettled(Run(NewClient(cfg, maxQueueSize, producers, workers), events).value);
  }

  // ---- what the callers were told ---------------------------------------------------------

  lemma StepKeepsAnswers(c: Client, e: Event)
    requires BatcherInv(c) && QR.RepliesInv(c.q) && Enabled(c, e)
    ensures QR.RepliesInv(Step(c, e).q)
  {
    if e.Queue? {
      QR.StepKeepsReplies(c.q, e.e);
    } else if e.Batch? {
      BatchTouchesQueue(c);
      hide BatchStep, BatchEnabled;
      var r := BatchStep(c);
      if r.q != c.q {
        if Q.ConsumerEnabled(c.q, Q.TakeAnswer) && r.q == Q.ConsumerStep(c.q, Q.TakeAnswer) {
          QR.StepKeepsReplies(c.q, Q.TakeAnswer);
        } else {
          var maxBytes, timed :| Q.ConsumerEnabled(c.q, Q.BeginDequeue(maxBytes, timed))
                                 && r.q == Q.ConsumerStep(c.q, Q.BeginDequeue(maxBytes, timed));
          QR.StepKeepsReplies(c.q, Q.BeginDequeue(maxBytes, timed));
        }
      }
    }
    hide QR.RepliesInv, Q.ConsumerStep, BatchStep, WorkerStep, BatcherInv;
  }

  lemma {:induction false} RunKeepsAnswers(c: Client, events: seq<Event>)
    requires ClientInv(c) && QR.RepliesInv(c.q) && Run(c, events).Some?
    ensures QR.RepliesInv(Run(c, events).value.q)
  {
    if |events| == 0 {
    } else {
      var front, e := events[..|events| - 1], events[|events| - 1];
      RunKeepsAnswers(c, front);
      RunKeepsClient(c, front);
      assert BatcherInv(Run(c, front).value);
      hide BatcherInv, HandleInv, WorkerInv, QR.RepliesInv, Step, Enabled;
      StepKeepsAnswers(Run(c, front).value, e);
    }
  }

  /** What a call's answer promises once all workers have stopped: the submission of a nil
      answer is settled in exactly one place, that of an error in none. */
  ghost predicate AnswerKept(c: Client, r: Q.Reply) {
    && (r.err.None? ==> exists i: nat :: i < |c.q.accepted| && c.q.accepted[i] == r.s && SettlesOnce(c, i))
    && (r.err.Some? ==> forall k: nat, j: nat :: !SettledAt(c, r.s, k, j))
  }

  lemma SettledIsAccepted(c: Client, s: Submission, k: nat, j: nat)
    requires Concat(c.d.sealed) == c.q.accepted && SettledAt(c, s, k, j)
    ensures QR.Accepted(c.q, s)
  {
    ConcatAt(c.d.sealed, k, j);
    assert c.q.accepted[|Concat(c.d.sealed[..k])| + j] == s;
    hide Concat;
  }

  /** In every run that ends with all workers stopped, each non-empty submission whose Enqueue
      returned nil is settled exactly once, and one whose Enqueue returned an error never. */
  lemma NilMeansSettled(cfg: Config, maxQueueSize: nat, producers: nat, workers: nat, events: seq<Event>, i: nat)
    requires Run(NewClient(cfg, maxQueueSize, producers, workers), events).Some?
    requires AllWorkersStopped(Run(NewClient(cfg, maxQueueSize, producers, workers), events).value.w)
    requires i < |Run(NewClient(cfg, maxQueueSize, producers, workers), events).value.q.replies|
    ensures var c := Run(NewClient(cfg, maxQueueSize, producers, workers), events).value;
            |c.q.replies[i].s.records| > 0 ==> AnswerKept(c, c.q.replies[i])
  {
    var first := NewClient(cfg, maxQueueSize, producers, workers);
    var c := Run(first, events).value;
    EverySubmissionSettlesOnce(cfg, maxQueueSize, producers, workers, events);
    InitClient(cfg, maxQueueSize, producers, workers);
    QR.NewRepliesInv(cfg.mode, maxQueueSize, producers);
    RunKeepsAnswers(first, events);
    var r := c.q.replies[i];
    assert QR.TrueReply(c.q, r);
    hide Run, NewClient, ClientInv, SettlesOnce, SettledAt, AllWorkersStopped, QR.RepliesInv;
    if |r.s.records| > 0 && r.err.Some? {
      forall k: nat, j: nat | SettledAt(c, r.s, k, j)
        ensures false
      {
        SettledIsAccepted(c, r.s, k, j);
      }
    }
  }
}
