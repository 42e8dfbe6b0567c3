/** Upload workers: each batch goes to one worker, completes once, and each callback of it
    runs once, afterwards and with the same result. */
module WorkerSafety {
  import opened Seqs
  import opened Submissions
  import opened Pipeline

  predicate Busy(pc: WorkerPc) {
    pc.Delivering? || pc.Calling?
  }

  /** A batch number belongs to the worker that received it, until it is done with it. */
  ghost predicate OwnerInv(d: Dispatch, w: Workers) {
    && |w.owner| <= |d.sealed|
    && (forall k: nat :: k < |w.owner| ==> w.owner[k] < |w.pcs|)
    && (forall i: nat :: i < |w.pcs| && Busy(w.pcs[i]) ==> w.pcs[i].k < |w.owner| && w.owner[w.pcs[i].k] == i)
  }

  ghost predicate CompletionInv(d: Dispatch, w: Workers) {
    && (forall k: nat :: k in w.completions ==> k < |w.owner|)
    && (forall k: nat :: k < |w.owner| && w.owner[k] < |w.pcs| ==>
          k in w.completions || w.pcs[w.owner[k]] == Delivering(k))
    && (forall i: nat :: i < |w.pcs| && w.pcs[i].Delivering? ==> w.pcs[i].k !in w.completions)
    && (forall i: nat :: i < |w.pcs| && w.pcs[i].Calling? ==>
          w.pcs[i].k in w.completions && w.completions[w.pcs[i].k] == w.pcs[i].result)
  }

  /** A completed batch's callbacks are through, or its worker is still at them. */
  ghost predicate ProgressInv(d: Dispatch, w: Workers) {
    && (forall k: nat :: k in w.completions <==> k in w.progress)
    && (forall k: nat :: k in w.progress && k < |d.sealed| ==> w.progress[k] <= |d.sealed[k]|)
    && (forall k: nat :: k < |w.owner| && k < |d.sealed| && w.owner[k] < |w.pcs| ==>
          k in w.progress && w.progress[k] < |d.sealed[k]| ==>
            w.pcs[w.owner[k]].Calling? && w.pcs[w.owner[k]].k == k)
  }

  function CallCount(calls: seq<Call>, k: nat, j: nat): nat {
    if |calls| == 0 then 0
    else
      var last := calls[|calls| - 1];
      CallCount(calls[..|calls| - 1], k, j) + if last.k == k && last.j == j then 1 else 0
  }

  /** The j-th submission of batch k has a callback, and the worker is past it. */
  predicate CallIsDue(d: Dispatch, w: Workers, k: nat, j: nat) {
    k in w.progress && k < |d.sealed| && j < w.progress[k] && j < |d.sealed[k]| && d.sealed[k][j].hasCallback
  }

  ghost predicate CallsExact(d: Dispatch, w: Workers) {
    forall k: nat, j: nat :: CallCount(w.calls, k, j) == if CallIsDue(d, w, k, j) then 1 else 0
  }

  /** No callback before the completion, and none with another result. */
  ghost predicate CallsTruthful(w: Workers) {
    forall i :: 0 <= i < |w.calls| ==>
      w.calls[i].k in w.completions && w.completions[w.calls[i].k] == w.calls[i].result
  }

  ghost predicate StopInv(d: Dispatch, w: Workers) {
    forall i: nat :: i < |w.pcs| && w.pcs[i].Stopped? ==> d.closed && |w.owner| >= |d.sealed|
  }

  ghost predicate WorkerInv(d: Dispatch, w: Workers) {
    OwnerInv(d, w) && CompletionInv(d, w) && ProgressInv(d, w) && CallsExact(d, w) && CallsTruthful(w) && StopInv(d, w)
  }

  lemma OneMoreCall(calls: seq<Call>, call: Call, k: nat, j: nat)
    ensures CallCount(calls + [call], k, j) == CallCount(calls, k, j) + if call.k == k && call.j == j then 1 else 0
  {
    assert (calls + [call])[..|calls|] == calls;
  }

  lemma StepKeepsOwner(d: Dispatch, w: Workers, e: Event)
    requires OwnerInv(d, w) && WorkerEnabled(d, w, e)
    ensures OwnerInv(d, WorkerStep(d, w, e))
  {
    hide AnyCallback, CompleteOnce;
  }

  lemma StepKeepsCompletion(d: Dispatch, w: Workers, e: Event)
    requires OwnerInv(d, w) && CompletionInv(d, w) && WorkerEnabled(d, w, e)
    ensures CompletionInv(d, WorkerStep(d, w, e))
  {
    hide AnyCallback;
  }

  lemma StepKeepsProgress(d: Dispatch, w: Workers, e: Event)
    requires OwnerInv(d, w) && CompletionInv(d, w) && ProgressInv(d, w) && WorkerEnabled(d, w, e)
    ensures ProgressInv(d, WorkerStep(d, w, e))
  {
    hide AnyCallback;
  }

  lemma ConcludeOwesNoCall(d: Dispatch, w: Workers, e: Event, k: nat, j: nat)
    requires CompletionInv(d, w) && ProgressInv(d, w) && WorkerEnabled(d, w, e) && e.Conclude?
    ensures CallIsDue(d, WorkerStep(d, w, e), k, j) == CallIsDue(d, w, k, j)
    ensures WorkerStep(d, w, e).calls == w.calls
  {
    assert w.pcs[e.i].k !in w.progress;
    hide CompleteOnce, CompletionInv, ProgressInv;
  }

  /** A callback step makes the call that is now due, if there is one, and no other. */
  lemma CallbackMakesDue(d: Dispatch, w: Workers, e: Event, k: nat, j: nat)
    requires CompletionInv(d, w) && ProgressInv(d, w) && WorkerEnabled(d, w, e) && e.Callback?
    ensures var r := WorkerStep(d, w, e);
            var b := w.pcs[e.i].k;
            && b in w.progress
            && (CallIsDue(d, r, k, j) <==>
                  CallIsDue(d, w, k, j) || (r.calls != w.calls && k == b && j == w.progress[b]))
            && (r.calls == w.calls
                || (r.calls == w.calls + [Call(b, w.progress[b], w.pcs[e.i].result)]
                    && !CallIsDue(d, w, b, w.progress[b])))
  {
    assert w.pcs[e.i].k in w.completions;
    assert w.pcs[e.i].k in w.progress;
    hide CompletionInv, ProgressInv, AnyCallback;
  }

  lemma CallbackCallsOne(d: Dispatch, w: Workers, e: Event, k: nat, j: nat)
    requires CompletionInv(d, w) && ProgressInv(d, w) && WorkerEnabled(d, w, e) && e.Callback?
    requires CallCount(w.calls, k, j) == if CallIsDue(d, w, k, j) then 1 else 0
    ensures var r := WorkerStep(d, w, e);
            CallCount(r.calls, k, j) == if CallIsDue(d, r, k, j) then 1 else 0
  {
    CallbackMakesDue(d, w, e, k, j);
    OneMoreCall(w.calls, Call(w.pcs[e.i].k, w.progress[w.pcs[e.i].k], w.pcs[e.i].result), k, j);
    hide CallCount, CallIsDue, CompletionInv, ProgressInv, AnyCallback, WorkerStep;
  }

  lemma StepKeepsCalls(d: Dispatch, w: Workers, e: Event)
    requires CompletionInv(d, w) && ProgressInv(d, w) && CallsExact(d, w) && WorkerEnabled(d, w, e)
    ensures CallsExact(d, WorkerStep(d, w, e))
  {
    hide CompletionInv, ProgressInv, CallCount, AnyCallback;
    var r := WorkerStep(d, w, e);
    forall k: nat, j: nat
      ensures CallCount(r.calls, k, j) == if CallIsDue(d, r, k, j) then 1 else 0
    {
      assert CallCount(w.calls, k, j) == if CallIsDue(d, w, k, j) then 1 else 0;
      if e.Callback? {
        CallbackCallsOne(d, w, e, k, j);
      } else if e.Conclude? {
        ConcludeOwesNoCall(d, w, e, k, j);
      }
    }
  }

  lemma StepKeepsTruth(d: Dispatch, w: Workers, e: Event)
    requires CompletionInv(d, w) && CallsTruthful(w) && WorkerEnabled(d, w, e)
    ensures CallsTruthful(WorkerStep(d, w, e))
  {
    hide AnyCallback;
  }

  lemma StepKeepsStop(d: Dispatch, w: Workers, e: Event)
    requires StopInv(d, w) && WorkerEnabled(d, w, e)
    ensures StopInv(d, WorkerStep(d, w, e))
  {
    hide AnyCallback, CompleteOnce;
  }

  lemma StepKeepsWorkers(d: Dispatch, w: Workers, e: Event)
    requires WorkerInv(d, w) && WorkerEnabled(d, w, e)
    ensures WorkerInv(d, WorkerStep(d, w, e))
  {
    StepKeepsOwner(d, w, e);
    StepKeepsCompletion(d, w, e);
    StepKeepsProgress(d, w, e);
    StepKeepsCalls(d, w, e);
    StepKeepsTruth(d, w, e);
    StepKeepsStop(d, w, e);
    hide WorkerStep, WorkerEnabled, OwnerInv, CompletionInv, ProgressInv, CallsExact, CallsTruthful, StopInv;
  }

  /** A completed batch keeps its result, whatever happens next. */
  lemma ResultIsFinal(d: Dispatch, w: Workers, e: Event, k: nat)
    requires WorkerEnabled(d, w, e) && k in w.completions
    ensures k in WorkerStep(d, w, e).completions && WorkerStep(d, w, e).completions[k] == w.completions[k]
  {
    hide AnyCallback;
  }

  /** More batches behind the ones dispatched change nothing for the workers. */
  lemma MoreBatches(d: Dispatch, more: Dispatch, w: Workers)
    requires WorkerInv(d, w) && !d.closed && d.sealed <= more.sealed
    ensures WorkerInv(more, w)
  {
    assert forall k: nat, j: nat :: CallIsDue(more, w, k, j) == CallIsDue(d, w, k, j);
    hide CallIsDue, CallCount;
  }

  /** When all workers have stopped, every batch is completed and every callback has run. */
  lemma AllStopped(d: Dispatch, w: Workers)
    requires WorkerInv(d, w)
    requires |w.pcs| > 0 && forall i: nat :: i < |w.pcs| ==> w.pcs[i].Stopped?
    ensures forall k: nat :: k in w.completions <==> k < |d.sealed|
    ensures forall k: nat, j: nat :: k < |d.sealed| && j < |d.sealed[k]| ==>
              CallCount(w.calls, k, j) == if d.sealed[k][j].hasCallback then 1 else 0
  {
    assert w.pcs[0].Stopped?;
    assert |w.owner| == |d.sealed|;
    forall k: nat | k < |d.sealed|
      ensures k in w.completions
    {
      assert w.pcs[w.owner[k]].Stopped?;
    }
    forall k: nat, j: nat | k < |d.sealed| && j < |d.sealed[k]|
      ensures CallCount(w.calls, k, j) == if d.sealed[k][j].hasCallback then 1 else 0
    {
      assert w.progress[k] == |d.sealed[k]|;
      assert CallCount(w.calls, k, j) == if CallIsDue(d, w, k, j) then 1 else 0;
    }
  }
}
