/** What the intake queue guarantees in every reachable state, for every interleaving. */
module QueueSafety {
  import Encoding
  import opened Seqs
  import opened Submissions
  import opened QueueSteps

  lemma InitInv(mode: Encoding.Mode, maxRequests: nat, producers: nat)
    ensures Inv(NewQueue(mode, maxRequests, producers))
  {
    SumZero(ProducerTokens, NewQueue(mode, maxRequests, producers).producers);
  }

  // ---- one step at a time ---------------------------------------------------

  lemma TokensMove(q: Queue, p: nat, to: Producer)
    requires p < |q.producers|
    ensures SumBy(ProducerTokens, q.producers[p := to]) ==
            SumBy(ProducerTokens, q.producers) - ProducerTokens(q.producers[p]) + ProducerTokens(to)
  {
    SumUpdate(ProducerTokens, q.producers, p, to);
  }

  /** A producer's step takes or returns a token, or moves it with its submission. */
  lemma ProducerMovesToken(q: Queue, e: Event)
    requires ByProducer(e) && ProducerEnabled(q, e) && q.slots <= q.maxRequests
    ensures var r := ProducerStep(q, e);
            && r.producers == q.producers[e.p := r.producers[e.p]]
            && r.slots - |r.items| - ProducerTokens(r.producers[e.p]) ==
               q.slots - |q.items| - ProducerTokens(q.producers[e.p])
            && r.pending == q.pending && r.consumer == q.consumer
            && r.slots <= r.maxRequests
  {
    hide WellSized;
    assert q.producers[e.p := q.producers[e.p]] == q.producers;
  }

  lemma ProducerKeepsSlots(q: Queue, e: Event)
    requires Inv(q) && ByProducer(e) && ProducerEnabled(q, e)
    ensures SlotsAccounted(ProducerStep(q, e))
  {
    assert SlotsAccounted(q);
    hide Inv, ProducerStep, ProducerEnabled, ProducerTokens, ConsumerTokens, SumBy;
    ProducerMovesToken(q, e);
    TokensMove(q, e.p, ProducerStep(q, e).producers[e.p]);
  }

  lemma ProducerKeepsOrder(q: Queue, e: Event)
    requires Inv(q) && ByProducer(e) && ProducerEnabled(q, e)
    ensures NothingLost(ProducerStep(q, e))
  {
    hide WellSized, BatchSize, SlotsAccounted, ConsumerSound, ProducersSound, AllWellSized;
    if e.WriteItem? {
      JoinQueue(q.delivered, InHand(q.consumer), PendingSeq(q), q.items, q.producers[e.p].s);
    }
  }

  lemma ProducerKeepsSound(q: Queue, e: Event)
    requires Inv(q) && ByProducer(e) && ProducerEnabled(q, e)
    ensures ConsumerSound(ProducerStep(q, e))
  {
    hide WellSized, BatchSize, SlotsAccounted, NothingLost, ProducersSound, AllWellSized;
  }

  lemma ProducerKeepsSizes(q: Queue, e: Event)
    requires Inv(q) && ByProducer(e) && ProducerEnabled(q, e)
    ensures ProducersSound(ProducerStep(q, e)) && AllWellSized(q.mode, ProducerStep(q, e).accepted)
    ensures ProducerStep(q, e).mode == q.mode
  {
    hide WellSized, BatchSize, SlotsAccounted, NothingLost, ConsumerSound;
  }

  lemma ProducerKeepsInv(q: Queue, e: Event)
    requires Inv(q) && ByProducer(e) && ProducerEnabled(q, e)
    ensures Inv(ProducerStep(q, e))
  {
    ProducerKeepsSlots(q, e);
    ProducerKeepsOrder(q, e);
    ProducerKeepsSound(q, e);
    ProducerKeepsSizes(q, e);
    hide ProducerStep, ProducerEnabled, SlotsAccounted, NothingLost, ConsumerSound, ProducersSound, AllWellSized;
  }

  /** Putting a submission back loses nothing if and only if none is there already ... */
  lemma PushBackIsSafeIffFree(q: Queue)
    requires NothingLost(q) && q.consumer.PushingBack?
    ensures NothingLost(ConsumerStep(q, PushBack)) <==> q.pending.None?
  {
    if q.pending.None? {
      PushBackKeepsOrder(q);
    } else {
      assert |q.accepted| == |q.delivered| + |q.consumer.held| + 1 + 1 + |q.items|;
    }
  }

  /** ... which holds in every reachable state because the batcher is the only consumer. */
  lemma PendingIsFreeWhenAssigned(mode: Encoding.Mode, maxRequests: nat, producers: nat, events: seq<Event>)
    requires Run(NewQueue(mode, maxRequests, producers), events).Some?
    ensures var q := Run(NewQueue(mode, maxRequests, producers), events).value;
            q.consumer.PushingBack? ==> q.pending.None? && NothingLost(ConsumerStep(q, PushBack))
  {
    ReachableInv(mode, maxRequests, producers, events);
    var q := Run(NewQueue(mode, maxRequests, producers), events).value;
    hide Run, NewQueue, SlotsAccounted, Gathered, AllWellSized;
    if q.consumer.PushingBack? {
      PushBackIsSafeIffFree(q);
    }
  }

  /** Items and the pushed-back submission are accepted ones, hence well sized. */
  lemma QueuedAreWellSized(q: Queue)
    requires NothingLost(q) && AllWellSized(q.mode, q.accepted)
    ensures AllWellSized(q.mode, q.items) && AllWellSized(q.mode, PendingSeq(q))
    ensures AllWellSized(q.mode, InHand(q.consumer)) && AllWellSized(q.mode, q.delivered)
  {
    hide WellSized, InHand, PendingSeq;
    var a, b, c := q.delivered, InHand(q.consumer), PendingSeq(q);
    PiecesWellSized(q.mode, a + b + c, q.items);
    PiecesWellSized(q.mode, a + b, c);
    PiecesWellSized(q.mode, a, b);
  }

  lemma PiecesWellSized(mode: Encoding.Mode, a: seq<Submission>, b: seq<Submission>)
    requires AllWellSized(mode, a + b)
    ensures AllWellSized(mode, a) && AllWellSized(mode, b)
  {
    hide WellSized;
    assert forall i :: 0 <= i < |a| ==> (a + b)[i] == a[i];
    assert forall i :: 0 <= i < |b| ==> (a + b)[|a| + i] == b[i];
  }

  lemma HeldFits(q: Queue)
    requires SlotsAccounted(q)
    ensures ConsumerTokens(q.consumer) + |q.items| + |PendingSeq(q)| <= q.maxRequests
  {
    SumAtLeast(ProducerTokens, q.producers);
  }

  lemma ConsumerKeepsSlots(q: Queue, e: Event)
    requires Inv(q) && ByConsumer(e) && ConsumerEnabled(q, e)
    ensures SlotsAccounted(ConsumerStep(q, e))
  {
    hide WellSized, BatchSize, SumBy, NothingLost, ProducersSound, AllWellSized;
  }

  lemma ReceiveKeepsOrder(q: Queue, call: Call)
    requires NothingLost(q) && |q.items| > 0 && q.pending.None? && InHand(q.consumer) == []
    ensures NothingLost(ReceiveItem(q, call))
  {
    TakeFirst(q.delivered, [], q.items);
    assert [] + [q.items[0]] == [q.items[0]];
  }

  lemma CheckPendingKeepsOrder(q: Queue)
    requires NothingLost(q) && q.consumer.TryPending?
    ensures NothingLost(ConsumerStep(q, CheckPending))
  {
    TakeKept(q.delivered, PendingSeq(q), q.items);
  }

  lemma CollectKeepsOrder(q: Queue)
    requires NothingLost(q) && q.consumer.Collecting? && q.pending.None?
    ensures NothingLost(ConsumerStep(q, CollectNext))
  {
    if |q.items| > 0 {
      TakeFirst(q.delivered, q.consumer.held, q.items);
    }
  }

  lemma PushBackKeepsOrder(q: Queue)
    requires NothingLost(q) && q.consumer.PushingBack? && q.pending.None?
    ensures NothingLost(ConsumerStep(q, PushBack))
  {
    KeepLast(q.delivered, q.consumer.held, q.consumer.next, q.items);
  }

  lemma ReleaseKeepsOrder(q: Queue)
    requires NothingLost(q) && ConsumerEnabled(q, ReleaseSlot)
    ensures NothingLost(ConsumerStep(q, ReleaseSlot))
  {
    HandOver(q.delivered, q.consumer.held, PendingSeq(q), q.items);
  }

  lemma ConsumerKeepsOrder(q: Queue, e: Event)
    requires Inv(q) && ByConsumer(e) && ConsumerEnabled(q, e)
    ensures NothingLost(ConsumerStep(q, e))
  {
    hide WellSized, BatchSize, SlotsAccounted, ProducersSound, AllWellSized, Gathered;
    if e.CheckPending? {
      CheckPendingKeepsOrder(q);
    } else if e.CollectNext? {
      CollectKeepsOrder(q);
    } else if e.PushBack? {
      PushBackKeepsOrder(q);
    } else if e.ReleaseSlot? {
      ReleaseKeepsOrder(q);
    } else if (e.CheckItem? || e.SelectItem?) && |q.items| > 0 {
      ReceiveKeepsOrder(q, q.consumer.call);
      hide NothingLost;
    }
  }

  /** A first submission on its own is gathered exactly. */
  lemma StartIsSound(q: Queue, s: Submission, maxBytes: int)
    requires WellSized(q.mode, s) && 1 <= q.maxRequests
    ensures ConsumerSound(q.(pending := None, consumer := StartCollecting(s, maxBytes)))
  {
    GatherOne(q.mode, s);
    hide WellSized, BatchSize;
  }

  lemma GatherOne(mode: Encoding.Mode, s: Submission)
    requires WellSized(mode, s)
    ensures BatchSize(mode, [s]) == s.standaloneByteSize
  {
    SizeAfterAppend(mode, [], s);
    assert [] + [s] == [s];
    hide WellSized, BatchSize;
  }

  lemma ReceiveIsSound(q: Queue, e: Event)
    requires Inv(q) && ByConsumer(e) && ConsumerEnabled(q, e)
    requires e.CheckPending? || e.CheckItem? || e.SelectItem?
    ensures ConsumerSound(ConsumerStep(q, e))
  {
    QueuedAreWellSized(q);
    HeldFits(q);
    var maxBytes := q.consumer.call.maxBytes;
    hide SlotsAccounted, NothingLost, Gathered, BatchSize, WellSized;
    if e.CheckPending? {
      if q.pending.Some? {
        assert PendingSeq(q)[0] == q.pending.value;
        StartIsSound(q, q.pending.value, maxBytes);
      }
    } else if |q.items| > 0 {
      StartIsSound(q, q.items[0], maxBytes);
      StartIsSound(q.(items := q.items[1..]), q.items[0], maxBytes);
    }
  }

  lemma GatherOneMore(q: Queue, maxBytes: int, held: seq<Submission>, bytes: int, next: Submission)
    requires Gathered(q.mode, maxBytes, held, bytes) && WellSized(q.mode, next)
    requires FitsLimit(maxBytes, bytes + next.appendByteSize)
    ensures Gathered(q.mode, maxBytes, held + [next], bytes + next.appendByteSize)
  {
    SizeAfterAppend(q.mode, held, next);
    hide WellSized, BatchSize;
  }

  lemma TakingOneMoreIsSound(q: Queue)
    requires ConsumerSound(q) && q.consumer.Collecting?
    requires |q.items| > 0 && WellSized(q.mode, q.items[0])
    requires FitsLimit(q.consumer.maxBytes, q.consumer.bytes + q.items[0].appendByteSize)
    ensures ConsumerSound(ConsumerStep(q, CollectNext))
  {
    hide WellSized, BatchSize, AllWellSized;
    GatherOneMore(q, q.consumer.maxBytes, q.consumer.held, q.consumer.bytes, q.items[0]);
    hide Gathered;
  }

  lemma StoppingIsSound(q: Queue)
    requires ConsumerSound(q) && q.consumer.Collecting? && |q.consumer.held| <= q.maxRequests
    requires |q.items| > 0 ==> !FitsLimit(q.consumer.maxBytes, q.consumer.bytes + q.items[0].appendByteSize)
    ensures ConsumerSound(ConsumerStep(q, CollectNext))
  {
    hide WellSized, BatchSize, AllWellSized;
    assert |q.consumer.held| > 0;
    hide Gathered;
  }

  lemma CollectIsSound(q: Queue)
    requires ConsumerSound(q) && q.consumer.Collecting? && |q.consumer.held| <= q.maxRequests
    requires |q.items| > 0 ==> WellSized(q.mode, q.items[0])
    ensures ConsumerSound(ConsumerStep(q, CollectNext))
  {
    hide WellSized, ConsumerSound, ConsumerStep, FitsLimit;
    if |q.items| > 0 && FitsLimit(q.consumer.maxBytes, q.consumer.bytes + q.items[0].appendByteSize) {
      TakingOneMoreIsSound(q);
    } else {
      StoppingIsSound(q);
    }
  }

  lemma ReturningIsSound(q: Queue, e: Event)
    requires ConsumerSound(q) && (e.PushBack? || e.ReleaseSlot?) && ConsumerEnabled(q, e)
    requires q.consumer.PushingBack? ==> |q.consumer.held| <= q.maxRequests
    ensures ConsumerSound(ConsumerStep(q, e))
  {
    hide WellSized, BatchSize, AllWellSized;
    assert q.consumer.PushingBack? ==> |q.consumer.held| > 0;
    hide Gathered;
  }

  lemma ConsumerKeepsSound(q: Queue, e: Event)
    requires Inv(q) && ByConsumer(e) && ConsumerEnabled(q, e)
    ensures ConsumerSound(ConsumerStep(q, e))
  {
    if e.CheckPending? || e.CheckItem? || e.SelectItem? {
      ReceiveIsSound(q, e);
    } else if e.CollectNext? {
      QueuedAreWellSized(q);
      HeldFits(q);
      CollectIsSound(q);
    } else if e.PushBack? || e.ReleaseSlot? {
      HeldFits(q);
      ReturningIsSound(q, e);
    }
    hide WellSized, BatchSize, SlotsAccounted, NothingLost, ProducersSound, AllWellSized, Gathered, StartCollecting,
         ReceiveItem;
  }

  /** A collection takes the next submission if and only if the body of all it then holds is
      within the request; otherwise it keeps that submission back. With none left it ends. */
  lemma CollectsWhileItFits(q: Queue)
    requires Inv(q) && q.consumer.Collecting?
    ensures var Collecting(maxBytes, held, bytes), r := q.consumer, Step(q, CollectNext).consumer;
            if |q.items| == 0 then r.Releasing? && r.held == held
            else if maxBytes <= 0 || BatchSize(q.mode, held + [q.items[0]]) <= maxBytes
            then r.Collecting? && r.held == held + [q.items[0]]
            else r.PushingBack? && r.held == held && r.next == q.items[0]
  {
    QueuedAreWellSized(q);
    assert Gathered(q.mode, q.consumer.maxBytes, q.consumer.held, q.consumer.bytes);
    hide Inv, WellSized, BatchSize, ProducerEnabled, ProducerStep;
    if |q.items| > 0 {
      SizeAfterAppend(q.mode, q.consumer.held, q.items[0]);
    }
  }

  /** A call that gets a first submission stops at it if and only if the body of that alone
      reaches the request. */
  lemma FirstAloneIff(q: Queue)
    requires Inv(q) && q.consumer.Selecting? && |q.items| > 0
    ensures var maxBytes, r := q.consumer.call.maxBytes, Step(q, SelectItem).consumer;
            if maxBytes > 0 && |Encoding.Body(q.mode, q.items[0].records)| >= maxBytes
            then r.Releasing? && r.held == [q.items[0]]
            else r.Collecting? && r.held == [q.items[0]]
  {
    QueuedAreWellSized(q);
    assert WellSized(q.mode, q.items[0]);
    hide SlotsAccounted, NothingLost, ProducersSound, Encoding.Body;
  }

  lemma ConsumerLeavesProducers(q: Queue, e: Event)
    requires ByConsumer(e) && ConsumerEnabled(q, e)
    ensures var r := ConsumerStep(q, e);
            && r.accepted == q.accepted && r.producers == q.producers && r.replies == q.replies
            && r.mode == q.mode && r.maxRequests == q.maxRequests && r.nextId == q.nextId && r.closed == q.closed
  {
    hide StartCollecting;
  }

  lemma ConsumerKeepsInv(q: Queue, e: Event)
    requires Inv(q) && ByConsumer(e) && ConsumerEnabled(q, e)
    ensures Inv(ConsumerStep(q, e))
  {
    ConsumerKeepsSlots(q, e);
    ConsumerKeepsOrder(q, e);
    ConsumerKeepsSound(q, e);
    ConsumerLeavesProducers(q, e);
    hide ConsumerStep, ConsumerEnabled, SlotsAccounted, NothingLost, ConsumerSound, AllWellSized, WellSized;
  }

  lemma StepKeepsInv(q: Queue, e: Event)
    requires Inv(q) && Enabled(q, e)
    ensures Inv(Step(q, e))
  {
    if ByProducer(e) {
      ProducerKeepsInv(q, e);
    } else if ByConsumer(e) {
      ConsumerKeepsInv(q, e);
    } else {
      hide WellSized, BatchSize;
    }
  }

  // ---- every run ------------------------------------------------------------

  lemma {:induction false} RunKeepsInv(q: Queue, events: seq<Event>)
    requires Inv(q) && Run(q, events).Some?
    ensures Inv(Run(q, events).value)
  {
    if |events| == 0 {
    } else {
      RunKeepsInv(q, events[..|events| - 1]);
      StepKeepsInv(Run(q, events[..|events| - 1]).value, events[|events| - 1]);
    }
  }

  /** The invariant holds in every state any number of producers, the consumer and Close
      can reach together. */
  lemma ReachableInv(mode: Encoding.Mode, maxRequests: nat, producers: nat, events: seq<Event>)
    requires Run(NewQueue(mode, maxRequests, producers), events).Some?
    ensures Inv(Run(NewQueue(mode, maxRequests, producers), events).value)
  {
    InitInv(mode, maxRequests, producers);
    RunKeepsInv(NewQueue(mode, maxRequests, producers), events);
  }

  /** The write inside the mutex and every return of a token go through at once, so no
      mutex section and no clean-up ever waits; and what Len reports is within bounds. */
  lemma NothingBlocks(q: Queue)
    requires Inv(q)
    ensures forall p :: 0 <= p < |q.producers| && q.producers[p].HasToken? ==> Enabled(q, WriteItem(p))
    ensures forall p :: 0 <= p < |q.producers| && q.producers[p].Refunding? ==> Enabled(q, RefundSlot(p))
    ensures q.consumer.Releasing? ==> Enabled(q, ReleaseSlot)
    ensures |q.items| + |PendingSeq(q)| <= q.maxRequests
  {
    hide WellSized, BatchSize, NothingLost, ProducersSound, AllWellSized;
    SumAtLeast(ProducerTokens, q.producers);
    hide SumBy;
    forall p | 0 <= p < |q.producers| && ProducerTokens(q.producers[p]) == 1
      ensures |q.items| < q.maxRequests && q.slots > 0
    {
    }
  }

  /** Once a dequeue has reported the end, the queue is empty in every later state. */
  lemma {:induction false} DrainedForGood(q: Queue, events: seq<Event>)
    requires Inv(q) && IsDrained(q) && Run(q, events).Some?
    ensures IsDrained(Run(q, events).value)
    ensures Run(q, events).value.accepted == q.accepted
    ensures Run(q, events).value.delivered == q.delivered
  {
    if |events| == 0 {
    } else {
      var front, e := events[..|events| - 1], events[|events| - 1];
      DrainedForGood(q, front);
      RunKeepsInv(q, front);
      DrainedStays(Run(q, front).value, e);
    }
  }

  lemma DrainedStays(q: Queue, e: Event)
    requires Inv(q) && IsDrained(q) && Enabled(q, e)
    ensures IsDrained(Step(q, e))
    ensures Step(q, e).accepted == q.accepted && Step(q, e).delivered == q.delivered
  {
    hide WellSized, BatchSize, SlotsAccounted, NothingLost;
  }

  /** The end of the queue is reported only when nothing is left, and then everything
      ever accepted has been handed out, in order, exactly once. */
  lemma EndMeansEverythingDelivered(q: Queue)
    requires Inv(q)
    requires q.consumer.Answered? && q.consumer.answer.Drained?
    ensures IsDrained(q) && q.delivered == q.accepted
  {
    hide WellSized, BatchSize, SlotsAccounted;
    assert q.delivered + InHand(q.consumer) + PendingSeq(q) + q.items == q.delivered;
  }

  // ---- collectBatch terminates against eager producers ------------------------

  /** Consumer steps a collection can still take. Producers do not appear in it. */
  function CollectRank(c: Consumer, maxRequests: nat): int {
    match c
    case Collecting(_, held, _) => 2 * maxRequests + 2 - |held|
    case PushingBack(_, _, _, _) => maxRequests + 1
    case Releasing(_, _, _, owed) => owed
    case _ => 0
  }

  predicate InCollect(c: Consumer) {
    c.Collecting? || c.PushingBack? || c.Releasing?
  }

  lemma RankInRange(q: Queue)
    requires Inv(q) && InCollect(q.consumer)
    ensures |q.consumer.held| <= q.maxRequests
    ensures q.consumer.Collecting? && |q.items| > 0 ==> |q.consumer.held| < q.maxRequests
    ensures 0 < CollectRank(q.consumer, q.maxRequests) <= 2 * q.maxRequests + 1
  {
    HeldFits(q);
    assert q.consumer.Collecting? || q.consumer.PushingBack? ==> |q.consumer.held| > 0;
    hide SlotsAccounted, NothingLost, ProducersSound, AllWellSized, Gathered;
  }

  lemma OwnStepDecreases(q: Queue, e: Event)
    requires InCollect(q.consumer) && ByConsumer(e) && ConsumerEnabled(q, e)
    requires |q.consumer.held| <= q.maxRequests
    requires q.consumer.Collecting? && |q.items| > 0 ==> |q.consumer.held| < q.maxRequests
    ensures CollectRank(ConsumerStep(q, e).consumer, q.maxRequests) < CollectRank(q.consumer, q.maxRequests)
    ensures ConsumerStep(q, e).maxRequests == q.maxRequests
  {}

  lemma OthersLeaveConsumer(q: Queue, e: Event)
    requires Enabled(q, e) && !ByConsumer(e)
    ensures Step(q, e).consumer == q.consumer && Step(q, e).maxRequests == q.maxRequests
  {
    hide WellSized;
  }

  lemma CollectStepDecreases(q: Queue, e: Event)
    requires Inv(q) && InCollect(q.consumer) && Enabled(q, e)
    ensures 0 < CollectRank(q.consumer, q.maxRequests) <= 2 * q.maxRequests + 1
    ensures ByConsumer(e) ==>
              CollectRank(Step(q, e).consumer, q.maxRequests) < CollectRank(q.consumer, q.maxRequests)
    ensures !ByConsumer(e) ==> Step(q, e).consumer == q.consumer
    ensures Step(q, e).maxRequests == q.maxRequests
  {
    RankInRange(q);
    hide Inv, CollectRank, ConsumerStep, ConsumerEnabled, ProducerStep, ProducerEnabled, InCollect;
    if ByConsumer(e) {
      OwnStepDecreases(q, e);
    } else {
      OthersLeaveConsumer(q, e);
    }
  }

  function ConsumerSteps(events: seq<Event>): nat {
    if |events| == 0 then 0
    else ConsumerSteps(events[..|events| - 1]) + if ByConsumer(events[|events| - 1]) then 1 else 0
  }

  /** However many events producers and Close squeeze in between, one collectBatch call
      takes at most 2 * maxRequests + 1 steps of its own before it answers. */
  lemma {:induction false} CollectTerminates(q: Queue, events: seq<Event>)
    requires Inv(q) && InCollect(q.consumer) && Run(q, events).Some?
    requires forall k :: 0 <= k < |events| ==>
               Run(q, events[..k]).Some? ==> InCollect(Run(q, events[..k]).value.consumer)
    ensures ConsumerSteps(events) + CollectRank(Run(q, events).value.consumer, q.maxRequests)
         <= CollectRank(q.consumer, q.maxRequests)
    ensures Run(q, events).value.maxRequests == q.maxRequests
    ensures ConsumerSteps(events) <= 2 * q.maxRequests + 1
  {
    if |events| == 0 {
    } else {
      var front, e := events[..|events| - 1], events[|events| - 1];
      assert forall k :: 0 <= k < |front| ==> front[..k] == events[..k];
      CollectTerminates(q, front);
      RunKeepsInv(q, front);
      CollectStepDecreases(Run(q, front).value, e);
    }
    RunKeepsInv(q, events);
    HeldFits(q);
    HeldFits(Run(q, events).value);
    hide WellSized, BatchSize, SlotsAccounted, NothingLost, Run;
  }

  // ---- every Enqueue call is its own submission -------------------------------

  predicate InFlight(q: Queue, p: nat, id: nat) {
    p < |q.producers| && !q.producers[p].Idle? && q.producers[p].s.id == id
  }

  ghost predicate IdsDistinct(q: Queue) {
    && (forall i, j :: 0 <= i < j < |q.accepted| ==> q.accepted[i].id != q.accepted[j].id)
    && (forall i :: 0 <= i < |q.accepted| ==> q.accepted[i].id < q.nextId)
    && (forall p: nat, id: nat :: InFlight(q, p, id) ==> id < q.nextId)
    && (forall p: nat, i :: 0 <= i < |q.accepted| ==> !InFlight(q, p, q.accepted[i].id))
    && (forall p: nat, r: nat, id: nat :: InFlight(q, p, id) && InFlight(q, r, id) ==> p == r)
  }

  /** No submission is accepted twice, whatever the interleaving. */
  lemma StepKeepsIds(q: Queue, e: Event)
    requires IdsDistinct(q) && Enabled(q, e)
    ensures IdsDistinct(Step(q, e))
  {
    if ByConsumer(e) {
      ConsumerLeavesProducers(q, e);
      var r := ConsumerStep(q, e);
      assert forall p: nat, id: nat :: InFlight(r, p, id) == InFlight(q, p, id);
    } else if ByProducer(e) {
      hide WellSized;
      var r := ProducerStep(q, e);
      assert forall p: nat, id: nat :: p != e.p ==> InFlight(r, p, id) == InFlight(q, p, id);
      assert !e.BeginEnqueue? ==> InFlight(q, e.p, q.producers[e.p].s.id);
      assert forall id: nat :: InFlight(r, e.p, id) ==> InFlight(q, e.p, id) || (e.BeginEnqueue? && id == q.nextId);
    } else {
      assert forall p: nat, id: nat :: InFlight(Step(q, e), p, id) == InFlight(q, p, id);
    }
  }
}
