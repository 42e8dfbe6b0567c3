/** What an Enqueue call's return value means: nil exactly for the submissions that are
    accepted, once each, and an error only for the reason it names. */
module QueueReplies {
  import Encoding
  import opened Seqs
  import opened Submissions
  import opened QueueSteps
  import opened QueueSafety

  ghost predicate Accepted(q: Queue, s: Submission) {
    exists i :: 0 <= i < |q.accepted| && q.accepted[i] == s
  }

  ghost predicate Replied(q: Queue, id: nat) {
    exists i :: 0 <= i < |q.replies| && q.replies[i].s.id == id
  }

  /** A reply is nil for an empty submission and for an accepted one, and otherwise an error
      that fits. */
  ghost predicate TrueReply(q: Queue, r: Reply) {
    && r.s.id < q.nextId
    && (r.err.None? <==> |r.s.records| == 0 || Accepted(q, r.s))
    && (r.err == Some(ClientClosed) ==> q.closed)
    && (r.err.Some? ==> r.err == Some(ClientClosed) || r.err == Some(QueueFull))
  }

  ghost predicate RepliesTrue(q: Queue) {
    && (forall i :: 0 <= i < |q.replies| ==> TrueReply(q, q.replies[i]))
    && (forall i, j :: 0 <= i < j < |q.replies| ==> q.replies[i].s.id != q.replies[j].s.id)
  }

  /** Each call is either still going on or has returned, not both. */
  ghost predicate EachOnce(q: Queue) {
    && (forall p: nat, id: nat :: InFlight(q, p, id) ==> !Replied(q, id) && |q.producers[p].s.records| > 0)
    && (forall i :: 0 <= i < |q.accepted| ==> Replied(q, q.accepted[i].id) && |q.accepted[i].records| > 0)
    && (forall id: nat :: id < q.nextId ==> Replied(q, id) || exists p: nat :: InFlight(q, p, id))
  }

  /** Only a queue that has been closed takes a token back from a producer. */
  ghost predicate RefundsWhenClosed(q: Queue) {
    forall p :: 0 <= p < |q.producers| && q.producers[p].Refunding? ==> q.closed
  }

  ghost predicate RepliesInv(q: Queue) {
    IdsDistinct(q) && RepliesTrue(q) && EachOnce(q) && RefundsWhenClosed(q)
  }

  lemma NewRepliesInv(mode: Encoding.Mode, maxRequests: nat, producers: nat)
    ensures RepliesInv(NewQueue(mode, maxRequests, producers))
  {}

  /** Steps that neither accept nor reply. */
  ghost predicate Silent(q: Queue, r: Queue) {
    && r.accepted == q.accepted && r.replies == q.replies && r.nextId == q.nextId
    && (q.closed ==> r.closed)
    && |r.producers| == |q.producers|
    && (forall p :: 0 <= p < |q.producers| ==>
          r.producers[p].Idle? == q.producers[p].Idle?
          && (!q.producers[p].Idle? ==> r.producers[p].s == q.producers[p].s))
  }

  lemma SilentKeeps(q: Queue, r: Queue)
    requires RepliesTrue(q) && EachOnce(q) && Silent(q, r)
    ensures RepliesTrue(r) && EachOnce(r)
  {
    assert forall p: nat, id: nat :: InFlight(r, p, id) == InFlight(q, p, id);
    assert forall id: nat :: Replied(r, id) == Replied(q, id);
    assert forall s :: Accepted(r, s) == Accepted(q, s);
    hide IdsDistinct, InFlight, Replied, Accepted;
    forall id: nat | id < r.nextId
      ensures Replied(r, id) || exists p: nat :: InFlight(r, p, id)
    {
      if !Replied(q, id) {
        var p: nat :| InFlight(q, p, id);
        assert InFlight(r, p, id);
      }
    }
  }

  /** Producer p's call returns `err` for its submission s. */
  ghost predicate Returns(q: Queue, r: Queue, p: nat, s: Submission, err: Option<SendError>) {
    && p < |q.producers| && r.producers == q.producers[p := Idle]
    && r.replies == q.replies + [Reply(s, err)] && r.closed == q.closed
    && (err.None? && |s.records| > 0 ==> r.accepted == q.accepted + [s])
    && (err.Some? || |s.records| == 0 ==> r.accepted == q.accepted)
    && (err == Some(ClientClosed) ==> q.closed)
    && (err.Some? ==> |s.records| > 0 && (err == Some(ClientClosed) || err == Some(QueueFull)))
  }

  /** ... either at once, or after it has been in flight. */
  ghost predicate CallOf(q: Queue, r: Queue, p: nat, s: Submission) {
    && p < |q.producers|
    && (if q.producers[p].Idle? then s.id == q.nextId && r.nextId == q.nextId + 1
        else InFlight(q, p, s.id) && q.producers[p].s == s && r.nextId == q.nextId)
  }

  lemma ReturnKeepsTrue(q: Queue, r: Queue, p: nat, s: Submission, err: Option<SendError>)
    requires RepliesInv(q) && Returns(q, r, p, s, err) && CallOf(q, r, p, s)
    ensures RepliesTrue(r)
  {
    assert !Replied(q, s.id) by {
      if q.producers[p].Idle? {
        assert forall i :: 0 <= i < |q.replies| ==> TrueReply(q, q.replies[i]);
      }
    }
    assert !Accepted(q, s) && forall i :: 0 <= i < |q.replies| ==> q.replies[i].s.id != s.id by {
      assert forall i :: 0 <= i < |q.accepted| ==> Replied(q, q.accepted[i].id);
    }
    hide EachOnce, IdsDistinct, InFlight, Replied;
    AcceptsOnly(q, r, s);
    forall i | 0 <= i < |r.replies|
      ensures TrueReply(r, r.replies[i])
    {
      if i < |q.replies| {
        assert TrueReply(q, q.replies[i]);
      }
    }
  }

  lemma AcceptsOnly(q: Queue, r: Queue, s: Submission)
    requires r.accepted == q.accepted + [s] || r.accepted == q.accepted
    ensures forall x :: x != s ==> Accepted(r, x) == Accepted(q, x)
    ensures Accepted(r, s) <==> Accepted(q, s) || r.accepted == q.accepted + [s]
  {
    assert forall i :: 0 <= i < |q.accepted| ==> r.accepted[i] == q.accepted[i];
    if r.accepted == q.accepted + [s] {
      assert r.accepted[|q.accepted|] == s;
    }
  }

  lemma RepliedMore(q: Queue, r: Queue, s: Submission, err: Option<SendError>)
    requires r.replies == q.replies + [Reply(s, err)]
    ensures forall id: nat :: Replied(r, id) <==> Replied(q, id) || id == s.id
  {
    assert r.replies[|q.replies|].s.id == s.id;
    forall id: nat | Replied(q, id)
      ensures Replied(r, id)
    {
      var i :| 0 <= i < |q.replies| && q.replies[i].s.id == id;
      assert r.replies[i] == q.replies[i];
    }
  }

  lemma ReturnKeepsOnce(q: Queue, r: Queue, p: nat, s: Submission, err: Option<SendError>)
    requires RepliesInv(q) && Returns(q, r, p, s, err) && CallOf(q, r, p, s)
    ensures EachOnce(r)
  {
    RepliedMore(q, r, s, err);
    assert forall o: nat, id: nat :: InFlight(r, o, id) <==> o != p && InFlight(q, o, id);
    assert forall o: nat :: o != p ==> !InFlight(q, o, s.id);
    assert forall i :: 0 <= i < |r.accepted| ==> r.accepted[i] == s || r.accepted[i] in q.accepted;
    hide RepliesTrue, Replied;
    forall id: nat | id < r.nextId
      ensures Replied(r, id) || exists o: nat :: InFlight(r, o, id)
    {
      if id != s.id && !Replied(q, id) {
        var o: nat :| InFlight(q, o, id);
        assert InFlight(r, o, id);
      }
    }
  }

  /** A call that neither returns nor is dropped at once is in flight. */
  lemma EntryKeeps(q: Queue, r: Queue, p: nat, s: Submission)
    requires RepliesInv(q) && p < |q.producers| && q.producers[p].Idle? && s.id == q.nextId && |s.records| > 0
    requires r == SetProducer(q, p, Choosing(s)).(nextId := q.nextId + 1)
    ensures RepliesTrue(r) && EachOnce(r)
  {
    assert forall o: nat, id: nat :: InFlight(r, o, id) <==> (o == p && id == s.id) || (o != p && InFlight(q, o, id));
    assert forall id: nat :: Replied(r, id) == Replied(q, id);
    assert forall x :: Accepted(r, x) == Accepted(q, x);
    assert forall i :: 0 <= i < |q.replies| ==> TrueReply(q, q.replies[i]);
    assert !Replied(q, s.id);
    assert !InFlight(q, p, q.nextId);
    hide InFlight, Replied, Accepted, IdsDistinct;
    forall id: nat | id < r.nextId
      ensures Replied(r, id) || exists o: nat :: InFlight(r, o, id)
    {
      if id == s.id {
        assert InFlight(r, p, id);
      } else if !Replied(q, id) {
        var o: nat :| InFlight(q, o, id);
        assert InFlight(r, o, id);
      }
    }
  }

  lemma ProducerKeepsReplies(q: Queue, e: Event)
    requires RepliesInv(q) && ByProducer(e) && ProducerEnabled(q, e)
    ensures RepliesTrue(ProducerStep(q, e)) && EachOnce(ProducerStep(q, e))
  {
    var r, p := ProducerStep(q, e), e.p;
    var s := if e.BeginEnqueue? then e.s else q.producers[p].s;
    if !e.BeginEnqueue? {
      assert InFlight(q, p, s.id);
    }
    if e.BeginEnqueue? && |s.records| > 0 && !q.closed {
      EntryKeeps(q, r, p, s);
    } else if e.AcquireSlot? || (e.WriteItem? && q.closed) {
      hide WellSized, RepliesTrue, EachOnce, IdsDistinct;
      SilentKeeps(q, r);
    } else {
      var err := r.replies[|q.replies|].err;
      ReturnsWhat(q, e);
      hide WellSized, ProducerStep, ProducerEnabled, RepliesInv;
      ReturnKeepsTrue(q, r, p, s, err);
      ReturnKeepsOnce(q, r, p, s, err);
    }
  }

  lemma ReturnsWhat(q: Queue, e: Event)
    requires RepliesInv(q) && ByProducer(e) && ProducerEnabled(q, e)
    requires !e.AcquireSlot? && (e.WriteItem? ==> !q.closed)
    requires e.BeginEnqueue? ==> |e.s.records| == 0 || q.closed
    ensures |ProducerStep(q, e).replies| == |q.replies| + 1
    ensures var r := ProducerStep(q, e);
            var s := if e.BeginEnqueue? then e.s else q.producers[e.p].s;
            Returns(q, r, e.p, s, r.replies[|q.replies|].err) && CallOf(q, r, e.p, s)
  {
    if !e.BeginEnqueue? {
      assert InFlight(q, e.p, q.producers[e.p].s.id);
    }
    assert q.producers[e.p := q.producers[e.p]] == q.producers;
    hide WellSized, RepliesTrue, IdsDistinct, Replied;
  }

  lemma StepKeepsRefunds(q: Queue, e: Event)
    requires RefundsWhenClosed(q) && Enabled(q, e)
    ensures RefundsWhenClosed(Step(q, e))
  {
    if ByConsumer(e) {
      ConsumerLeavesProducers(q, e);
    }
    hide ConsumerStep, ConsumerEnabled, WellSized;
  }

  lemma StepKeepsReplies(q: Queue, e: Event)
    requires RepliesInv(q) && Enabled(q, e)
    ensures RepliesInv(Step(q, e))
  {
    StepKeepsIds(q, e);
    StepKeepsRefunds(q, e);
    hide RefundsWhenClosed;
    if ByProducer(e) {
      ProducerKeepsReplies(q, e);
    } else {
      if ByConsumer(e) {
        ConsumerLeavesProducers(q, e);
      }
      hide ConsumerStep, ConsumerEnabled, RepliesTrue, EachOnce, IdsDistinct;
      SilentKeeps(q, Step(q, e));
    }
    hide RepliesTrue, EachOnce, IdsDistinct, ProducerStep, ProducerEnabled;
  }

  lemma {:induction false} RunKeepsReplies(mode: Encoding.Mode, maxRequests: nat, producers: nat, events: seq<Event>)
    requires Run(NewQueue(mode, maxRequests, producers), events).Some?
    ensures RepliesInv(Run(NewQueue(mode, maxRequests, producers), events).value)
  {
    if |events| == 0 {
      NewRepliesInv(mode, maxRequests, producers);
    } else {
      var front := events[..|events| - 1];
      RunKeepsReplies(mode, maxRequests, producers, front);
      StepKeepsReplies(Run(NewQueue(mode, maxRequests, producers), front).value, events[|events| - 1]);
      hide RepliesInv, Step, Enabled;
    }
  }

  // ---- what a caller may rely on -----------------------------------------------------

  /** How often a submission has been written to `items`. */
  function TimesAccepted(q: Queue, s: Submission): nat {
    multiset(q.accepted)[s]
  }

  lemma {:induction false} AtMostOnceIn(subs: seq<Submission>, s: Submission)
    requires forall i, j :: 0 <= i < j < |subs| ==> subs[i].id != subs[j].id
    ensures multiset(subs)[s] == if s in subs then 1 else 0
  {
    if |subs| == 0 {
      assert subs == [];
    } else {
      var front, last := subs[..|subs| - 1], subs[|subs| - 1];
      AtMostOnceIn(front, s);
      assert subs == front + [last];
      assert multiset(subs) == multiset(front) + multiset{last};
      assert forall i :: 0 <= i < |front| ==> front[i] == subs[i];
    }
  }

  /** In every run: a call on a non-empty submission returns nil if and only if the submission
      is accepted, and that exactly once; an error says closed only of a closed queue; and no
      call returns twice. */
  lemma NilMeansAccepted(mode: Encoding.Mode, maxRequests: nat, producers: nat, events: seq<Event>, i: nat)
    requires Run(NewQueue(mode, maxRequests, producers), events).Some?
    requires i < |Run(NewQueue(mode, maxRequests, producers), events).value.replies|
    ensures var q := Run(NewQueue(mode, maxRequests, producers), events).value;
            var r := q.replies[i];
            && (|r.s.records| > 0 ==> TimesAccepted(q, r.s) == if r.err.None? then 1 else 0)
            && (r.err == Some(ClientClosed) ==> q.closed)
            && (forall j :: 0 <= j < |q.replies| && q.replies[j].s.id == r.s.id ==> j == i)
  {
    RunKeepsReplies(mode, maxRequests, producers, events);
    var q := Run(NewQueue(mode, maxRequests, producers), events).value;
    assert TrueReply(q, q.replies[i]);
    AtMostOnceIn(q.accepted, q.replies[i].s);
    hide Run, NewQueue, EachOnce;
  }

  /** Nothing is accepted behind the callers' backs: an accepted submission's call has
      returned, with nil; and a call that has begun has returned or is still going on. */
  lemma AcceptedMeansNil(mode: Encoding.Mode, maxRequests: nat, producers: nat, events: seq<Event>)
    requires Run(NewQueue(mode, maxRequests, producers), events).Some?
    ensures var q := Run(NewQueue(mode, maxRequests, producers), events).value;
            && (forall k :: 0 <= k < |q.accepted| ==> Replied(q, q.accepted[k].id))
            && (forall i :: 0 <= i < |q.replies| && |q.replies[i].s.records| > 0 ==>
                  (q.replies[i].err.None? <==> Accepted(q, q.replies[i].s)))
            && (forall id: nat :: id < q.nextId ==> Replied(q, id) || exists p: nat :: InFlight(q, p, id))
  {
    RunKeepsReplies(mode, maxRequests, producers, events);
    var q := Run(NewQueue(mode, maxRequests, producers), events).value;
    assert forall i :: 0 <= i < |q.replies| ==> TrueReply(q, q.replies[i]);
    hide Run, NewQueue, IdsDistinct, Replied, Accepted, InFlight;
  }

  /** What a call meets first: an empty submission is dropped with nil, a closed queue refuses
      at once, and on an open one the call goes on to wait for its token. */
  lemma FirstCheck(q: Queue, p: nat, s: Submission)
    requires Enabled(q, BeginEnqueue(p, s))
    ensures var r := Step(q, BeginEnqueue(p, s));
            && r.accepted == q.accepted && r.items == q.items && r.slots == q.slots
            && if |s.records| == 0 then r.producers[p].Idle? && r.replies == q.replies + [Reply(s, None)]
               else if q.closed then r.producers[p].Idle? && r.replies == q.replies + [Reply(s, Some(ClientClosed))]
               else r.producers[p] == Choosing(s) && r.replies == q.replies
  {
    hide WellSized;
  }

  /** A token is honoured: on an open queue its holder's submission is accepted and the call
      returns nil; on a closed one it is not, and the call returns the closed error. */
  lemma TokenIsHonoured(q: Queue, p: nat)
    requires Inv(q) && p < |q.producers| && q.producers[p].HasToken?
    ensures Enabled(q, WriteItem(p))
    ensures var s, r := q.producers[p].s, Step(q, WriteItem(p));
            if q.closed then
              && r.accepted == q.accepted && Enabled(r, RefundSlot(p))
              && Step(r, RefundSlot(p)).accepted == q.accepted
              && Step(r, RefundSlot(p)).replies == q.replies + [Reply(s, Some(ClientClosed))]
              && Step(r, RefundSlot(p)).slots == q.slots - 1
            else
              && r.accepted == q.accepted + [s] && r.items == q.items + [s]
              && r.replies == q.replies + [Reply(s, None)] && r.slots == q.slots
  {
    NothingBlocks(q);
    SumAtLeast(ProducerTokens, q.producers);
    assert ProducerTokens(q.producers[p]) == 1;
    hide NothingLost, ConsumerSound, ProducersSound, AllWellSized, SumBy, WellSized;
  }

  /** A call waits for a token only while all maxRequests of them belong to submissions that
      wait, are being collected, or are on their way into the queue. */
  lemma WhenCallersWait(q: Queue, p: nat)
    requires Inv(q) && p < |q.producers| && q.producers[p].Choosing?
    ensures var taken := |q.items| + |PendingSeq(q)| + ConsumerTokens(q.consumer) + SumBy(ProducerTokens, q.producers);
            Enabled(q, AcquireSlot(p)) <==> taken < q.maxRequests
    ensures Enabled(q, EnqueueClosed(p)) <==> q.closed
  {
    hide NothingLost, ConsumerSound, ProducersSound, AllWellSized, SumBy, WellSized;
  }
}
