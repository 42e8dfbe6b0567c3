/** Which batch each handle is attached to. */
module Attachment {
  import Q = QueueSteps
  import QS = QueueSafety
  import opened Seqs
  import opened Submissions
  import opened Encoding
  import opened Packing
  import opened Pipeline
  import opened PipelineSafety
  import opened Refinement

  ghost predicate AttachedTo(batches: seq<seq<Submission>>, handles: map<nat, nat>) {
    forall k: nat, j: nat :: k < |batches| && j < |batches[k]| ==>
      batches[k][j].id in handles && handles[batches[k][j].id] == k
  }

  ghost predicate HasId(subs: seq<Submission>, id: nat) {
    exists i :: 0 <= i < |subs| && subs[i].id == id
  }

  ghost predicate OnlyPlaced(handles: map<nat, nat>, log: seq<Token>) {
    forall id :: id in handles ==> HasId(Arrivals(log), id)
  }

  /** Every placed submission's handle names its own batch; no other handle has one yet. */
  ghost predicate HandleInv(c: Client) {
    && AttachedTo(c.d.sealed + [c.b.open], c.b.handles)
    && OnlyPlaced(c.b.handles, c.b.log)
  }

  lemma AttachOne(sealed: seq<seq<Submission>>, open: seq<Submission>, handles: map<nat, nat>, s: Submission)
    requires AttachedTo(sealed + [open], handles) && s.id !in handles
    ensures AttachedTo(sealed + [open + [s]], AttachHandle(handles, s.id, |sealed|))
  {
    var was: seq<seq<Submission>>, now: seq<seq<Submission>> := sealed + [open], sealed + [open + [s]];
    var after := AttachHandle(handles, s.id, |sealed|);
    forall k: nat, j: nat | k < |now| && j < |now[k]|
      ensures now[k][j].id in after && after[now[k][j].id] == k
    {
      if k < |sealed| || j < |open| {
        assert now[k][j] == was[k][j];
      }
    }
  }

  lemma OpenNext(sealed: seq<seq<Submission>>, open: seq<Submission>, handles: map<nat, nat>)
    requires AttachedTo(sealed + [open], handles)
    ensures AttachedTo((sealed + [open]) + [[]], handles)
  {
    var was, now := sealed + [open], (sealed + [open]) + [[]];
    assert forall k: nat :: k < |was| ==> now[k] == was[k];
  }

  lemma PlacedOneMore(handles: map<nat, nat>, log: seq<Token>, s: Submission, k: nat)
    requires OnlyPlaced(handles, log)
    ensures OnlyPlaced(AttachHandle(handles, s.id, k), log + [Arrive(s)])
  {
    FoldAppend(CSV, 0, EMPTY, log, Arrive(s));
    var before, after := Arrivals(log), Arrivals(log + [Arrive(s)]);
    assert after[|before|] == s;
    forall id | id in AttachHandle(handles, s.id, k)
      ensures HasId(after, id)
    {
      if id in handles {
        var i :| 0 <= i < |before| && before[i].id == id;
        assert after[i] == before[i];
      }
    }
  }

  lemma PlacedAfterFlush(handles: map<nat, nat>, log: seq<Token>)
    requires OnlyPlaced(handles, log)
    ensures OnlyPlaced(handles, log + [Flush])
  {
    FoldAppend(CSV, 0, EMPTY, log, Flush);
    assert Arrivals(log + [Flush]) == Arrivals(log);
    hide Arrivals, HasId;
  }

  /** The next submission's handle is still unattached: ids are never reused. */
  lemma NextIsUnattached(c: Client)
    requires FlowInv(c) && Q.NothingLost(c.q) && QS.IdsDistinct(c.q) && OnlyPlaced(c.b.handles, c.b.log)
    requires |Rest(c.b.pc)| > 0
    ensures Rest(c.b.pc)[0].id !in c.b.handles
  {
    LogIsAPrefix(c);
    var arrived, s := Arrivals(c.b.log), Rest(c.b.pc)[0];
    assert c.q.accepted[|arrived|] == s by {
      assert OnTheWay(c)[0] == s;
      hide Arrivals, Rest;
    }
    hide OnTheWay, Arrivals, Rest, Q.NothingLost, FlowInv;
    forall i | 0 <= i < |arrived|
      ensures arrived[i].id != s.id
    {
      assert c.q.accepted[i] == arrived[i];
    }
  }

  lemma PlaceKeepsHandles(c: Client, sealed: seq<seq<Submission>>, b: Batcher, rest: seq<Submission>)
    requires AttachedTo(sealed + [b.open], b.handles) && OnlyPlaced(b.handles, b.log)
    requires |rest| > 0 && rest[0].id !in b.handles
    ensures var r := Place(c.cfg, b, c.now, rest, |sealed|);
            AttachedTo(sealed + [r.open], r.handles) && OnlyPlaced(r.handles, r.log)
  {
    AttachOne(sealed, b.open, b.handles, rest[0]);
    PlacedOneMore(b.handles, b.log, rest[0], |sealed|);
    hide AttachedTo, OnlyPlaced, IsFull, AttachHandle;
  }

  lemma BatchKeepsHandles(c: Client)
    requires BatcherInv(c) && HandleInv(c) && BatchEnabled(c)
    ensures HandleInv(BatchStep(c))
  {
    PlacedAfterFlush(c.b.handles, c.b.log);
    OpenNext(c.d.sealed, c.b.open, c.b.handles);
    if |Rest(c.b.pc)| > 0 {
      NextIsUnattached(c);
    }
    hide AttachedTo, OnlyPlaced, QueueInv, PackInv, FlowInv, EndInv, MustFlushFirst, BatchSize, Place, FlushThen,
         Q.ConsumerStep;
    FlushFacts(c.b, ToOuter);
    FlushFacts(c.b, ToEnd);
    assert FlushThen(c.b, ToOuter).log == c.b.log + [Flush] && FlushThen(c.b, ToEnd).log == c.b.log + [Flush] by {
      FlushLog(c.b, ToOuter);
      FlushLog(c.b, ToEnd);
    }
    match c.b.pc {
      case Adding(rest) =>
        if |rest| > 0 {
          PlaceKeepsHandles(c, c.d.sealed, c.b, rest);
        }
      case Sealing(AddNext(rest)) =>
        if |rest| > 0 {
          PlaceKeepsHandles(c, c.d.sealed + [c.b.open], c.b.(open := []), rest);
        }
      case _ =>
    }
  }

  lemma FlushLog(b: Batcher, after: After)
    ensures FlushThen(b, after).log == b.log + [Flush]
  {}

  lemma StepKeepsHandles(c: Client, e: Event)
    requires BatcherInv(c) && HandleInv(c) && Enabled(c, e)
    ensures HandleInv(Step(c, e))
  {
    if e.Batch? {
      BatchKeepsHandles(c);
    }
    hide BatcherInv, AttachedTo, OnlyPlaced, BatchStep, Q.Step, Q.Enabled, WorkerStep;
  }

  lemma {:induction false} RunKeepsHandles(c: Client, events: seq<Event>)
    requires BatcherInv(c) && HandleInv(c) && Run(c, events).Some?
    ensures HandleInv(Run(c, events).value)
  {
    if |events| == 0 {
    } else {
      var front, e := events[..|events| - 1], events[|events| - 1];
      RunKeepsHandles(c, front);
      RunKeepsBatcher(c, front);
      StepKeepsHandles(Run(c, front).value, e);
      hide BatcherInv, HandleInv, Step, Enabled;
    }
  }

  /** Attaching is over when a batch is dispatched: a step attaches handles only to the batch
      that is still open after it, and moves none that was attached. */
  lemma OnlyOpenIsAttached(c: Client, e: Event, id: nat)
    requires BatcherInv(c) && Enabled(c, e)
    ensures var r := Step(c, e);
            && (id in c.b.handles ==> id in r.b.handles && r.b.handles[id] == c.b.handles[id])
            && (id !in c.b.handles && id in r.b.handles ==> r.b.handles[id] == |r.d.sealed|)
  {
    hide QueueInv, PackInv, FlowInv, PcInv, EndInv, MustFlushFirst, BatchSize, IsFull, Q.Step, Q.Enabled,
         Q.ConsumerStep, WorkerStep, WorkerEnabled;
  }
}
