/** The intake queue under concurrency: any number of producers, one consumer, and
    `Close`, interleaved at every mutex section, channel operation and select branch. */
module QueueSteps {
  import Encoding
  import opened Seqs
  import opened Submissions

  /** Where one `Enqueue` call stands. */
  datatype Producer =
    | Idle
    | Choosing(s: Submission)   // first closed check passed; in the select
    | HasToken(s: Submission)   // token taken; before the second mutex section
    | Refunding(s: Submission)  // found the queue closed; takes a token back

  /** One dequeue call. `timed` marks DequeueBatchWait; `closing` that closeC was seen. */
  datatype Call = Call(maxBytes: int, timed: bool, closing: bool)

  datatype Answer = Got(subs: seq<Submission>, bytes: int) | TimedOut | Drained

  /** Where the single consumer, the batcher goroutine, stands inside the queue. */
  datatype Consumer =
    | Outside
    | TryPending(call: Call)
    | TryItem(call: Call)
    | Selecting(call: Call)
    | Collecting(maxBytes: int, held: seq<Submission>, bytes: int)
    | PushingBack(maxBytes: int, held: seq<Submission>, bytes: int, next: Submission)
    | Releasing(maxBytes: int, held: seq<Submission>, bytes: int, owed: nat)
    | Answered(maxBytes: int, answer: Answer)

  /** What an Enqueue call has returned: nil is None. */
  datatype Reply = Reply(s: Submission, err: Option<SendError>)

  /** `items` and `slots` are the two channels. `accepted`, `delivered` and `replies` are
      histories: writes to `items` in order, what dequeue calls have handed out, and what
      Enqueue calls have returned. */
  datatype Queue = Queue(
    mode: Encoding.Mode,
    maxRequests: nat,
    slots: nat,
    items: seq<Submission>,
    pending: Option<Submission>,
    closed: bool,
    producers: seq<Producer>,
    consumer: Consumer,
    accepted: seq<Submission>,
    delivered: seq<Submission>,
    replies: seq<Reply>,
    nextId: nat)

  datatype Event =
    | BeginEnqueue(p: nat, s: Submission)
    | AcquireSlot(p: nat)
    | EnqueueClosed(p: nat)
    | EnqueueTimeout(p: nat)
    | WriteItem(p: nat)
    | RefundSlot(p: nat)
    | CloseQueue
    | BeginDequeue(maxBytes: int, timed: bool)
    | CheckPending
    | CheckItem
    | SelectItem
    | SelectClose
    | SelectTimer
    | CollectNext
    | PushBack
    | ReleaseSlot
    | TakeAnswer

  function NewQueue(mode: Encoding.Mode, maxRequests: nat, producers: nat): Queue {
    Queue(mode, maxRequests, 0, [], None, false, seq(producers, _ => Idle), Outside, [], [], [], 0)
  }

  // ---- steps ----------------------------------------------------------------

  predicate ByProducer(e: Event) {
    e.BeginEnqueue? || e.AcquireSlot? || e.EnqueueClosed? || e.EnqueueTimeout? || e.WriteItem? || e.RefundSlot?
  }

  predicate ByConsumer(e: Event) {
    !ByProducer(e) && !e.CloseQueue?
  }

  predicate ProducerEnabled(q: Queue, e: Event)
    requires ByProducer(e)
  {
    e.p < |q.producers| &&
    match e
    case BeginEnqueue(p, s) =>
      // submissions reach the queue as the admission code builds them
      q.producers[p].Idle? && s.id == q.nextId && (|s.records| == 0 || WellSized(q.mode, s))
    case AcquireSlot(p) => q.producers[p].Choosing? && q.slots < q.maxRequests
    case EnqueueClosed(p) => q.producers[p].Choosing? && q.closed
    case EnqueueTimeout(p) => q.producers[p].Choosing?
    case WriteItem(p) => q.producers[p].HasToken? && (q.closed || |q.items| < q.maxRequests)
    case RefundSlot(p) => q.producers[p].Refunding? && q.slots > 0
    case _ => false
  }

  function SetProducer(q: Queue, p: nat, to: Producer): Queue
    requires p < |q.producers|
  {
    q.(producers := q.producers[p := to])
  }

  /** The call returns. */
  function Return(q: Queue, p: nat, s: Submission, err: Option<SendError>): Queue
    requires p < |q.producers|
  {
    SetProducer(q, p, Idle).(replies := q.replies + [Reply(s, err)])
  }

  function ProducerStep(q: Queue, e: Event): Queue
    requires ByProducer(e) && ProducerEnabled(q, e)
  {
    match e
    case BeginEnqueue(p, s) =>
      // An empty submission is dropped; a closed queue refuses.
      if |s.records| == 0 then Return(q, p, s, None).(nextId := q.nextId + 1)
      else if q.closed then Return(q, p, s, Some(ClientClosed)).(nextId := q.nextId + 1)
      else SetProducer(q, p, Choosing(s)).(nextId := q.nextId + 1)
    case AcquireSlot(p) => SetProducer(q, p, HasToken(q.producers[p].s)).(slots := q.slots + 1)
    case EnqueueClosed(p) => Return(q, p, q.producers[p].s, Some(ClientClosed))
    case EnqueueTimeout(p) => Return(q, p, q.producers[p].s, Some(QueueFull))
    case WriteItem(p) =>
      var s := q.producers[p].s;
      if q.closed then SetProducer(q, p, Refunding(s))
      else Return(q, p, s, None).(items := q.items + [s], accepted := q.accepted + [s])
    case RefundSlot(p) => Return(q, p, q.producers[p].s, Some(ClientClosed)).(slots := q.slots - 1)
  }

  predicate ConsumerEnabled(q: Queue, e: Event)
    requires ByConsumer(e)
  {
    match e
    case BeginDequeue(_, _) => q.consumer.Outside?
    case CheckPending => q.consumer.TryPending?
    case CheckItem => q.consumer.TryItem?
    case SelectItem => q.consumer.Selecting? && |q.items| > 0
    case SelectClose => q.consumer.Selecting? && q.closed
    case SelectTimer => q.consumer.Selecting? && q.consumer.call.timed
    case CollectNext => q.consumer.Collecting?
    case PushBack => q.consumer.PushingBack?
    case ReleaseSlot => q.consumer.Releasing? && q.slots > 0 && q.consumer.owed > 0
    case TakeAnswer => q.consumer.Answered?
    case _ => false
  }

  /** Entry of `collectBatch`: a first submission that already fills the request is returned alone. */
  function StartCollecting(first: Submission, maxBytes: int): Consumer {
    if maxBytes > 0 && first.standaloneByteSize >= maxBytes
    then Releasing(maxBytes, [first], first.standaloneByteSize, 1)
    else Collecting(maxBytes, [first], first.standaloneByteSize)
  }

  function ReceiveItem(q: Queue, call: Call): Queue
    requires |q.items| > 0
  {
    q.(items := q.items[1..], consumer := StartCollecting(q.items[0], call.maxBytes))
  }

  function ConsumerStep(q: Queue, e: Event): Queue
    requires ByConsumer(e) && ConsumerEnabled(q, e)
  {
    match e
    case BeginDequeue(maxBytes, timed) => q.(consumer := TryPending(Call(maxBytes, timed, false)))
    case CheckPending =>
      var call := q.consumer.call;
      (match q.pending
       case Some(s) => q.(pending := None, consumer := StartCollecting(s, call.maxBytes))
       case None => q.(consumer := TryItem(call)))
    case CheckItem =>
      var call := q.consumer.call;
      if |q.items| > 0 then ReceiveItem(q, call)
      else if call.closing then q.(consumer := Answered(call.maxBytes, Drained))
      else q.(consumer := Selecting(call))
    case SelectItem => ReceiveItem(q, q.consumer.call)
    case SelectClose => q.(consumer := TryPending(q.consumer.call.(closing := true)))
    case SelectTimer => q.(consumer := Answered(q.consumer.call.maxBytes, TimedOut))
    case CollectNext =>
      var Collecting(maxBytes, held, bytes) := q.consumer;
      if |q.items| == 0 then q.(consumer := Releasing(maxBytes, held, bytes, |held|))
      else
        var next := q.items[0];
        var rest := q.(items := q.items[1..]);
        if maxBytes > 0 && bytes + next.appendByteSize > maxBytes
        then rest.(consumer := PushingBack(maxBytes, held, bytes, next))
        else rest.(consumer := Collecting(maxBytes, held + [next], bytes + next.appendByteSize))
    case PushBack =>
      var PushingBack(maxBytes, held, bytes, next) := q.consumer;
      q.(pending := Some(next), consumer := Releasing(maxBytes, held, bytes, |held|))
    case ReleaseSlot =>
      var Releasing(maxBytes, held, bytes, owed) := q.consumer;
      var less := q.(slots := q.slots - 1);
      if owed > 1 then less.(consumer := Releasing(maxBytes, held, bytes, owed - 1))
      else less.(consumer := Answered(maxBytes, Got(held, bytes)), delivered := q.delivered + held)
    case TakeAnswer => q.(consumer := Outside)
  }

  predicate Enabled(q: Queue, e: Event) {
    if ByProducer(e) then ProducerEnabled(q, e)
    else if e.CloseQueue? then true
    else ConsumerEnabled(q, e)
  }

  function Step(q: Queue, e: Event): Queue
    requires Enabled(q, e)
  {
    if ByProducer(e) then ProducerStep(q, e)
    else if e.CloseQueue? then q.(closed := true)
    else ConsumerStep(q, e)
  }

  /** A run from `q`, or None when some event was not possible where it occurs. */
  function Run(q: Queue, events: seq<Event>): Option<Queue> {
    if |events| == 0 then Some(q)
    else match Run(q, events[..|events| - 1])
      case None => None
      case Some(m) =>
        var e := events[|events| - 1];
        if Enabled(m, e) then Some(Step(m, e)) else None
  }

  // ---- what every reachable state satisfies ---------------------------------

  function ProducerTokens(p: Producer): int {
    if p.HasToken? || p.Refunding? then 1 else 0
  }

  function ConsumerTokens(c: Consumer): int {
    match c
    case Collecting(_, held, _) => |held|
    case PushingBack(_, held, _, _) => |held| + 1
    case Releasing(_, _, _, owed) => owed
    case _ => 0
  }

  function PendingSeq(q: Queue): seq<Submission> {
    match q.pending
    case Some(s) => [s]
    case None => []
  }

  /** Submissions inside a dequeue call that has not answered yet. */
  function InHand(c: Consumer): seq<Submission> {
    match c
    case Collecting(_, held, _) => held
    case PushingBack(_, held, _, next) => held + [next]
    case Releasing(_, held, _, _) => held
    case _ => []
  }

  /** Every token is accounted for by exactly one of the four places. */
  ghost predicate SlotsAccounted(q: Queue) {
    && q.slots == |q.items| + |PendingSeq(q)| + ConsumerTokens(q.consumer) + SumBy(ProducerTokens, q.producers)
    && q.slots <= q.maxRequests
  }

  /** First in, first out, nothing lost or repeated. */
  ghost predicate NothingLost(q: Queue) {
    q.accepted == q.delivered + InHand(q.consumer) + PendingSeq(q) + q.items
  }

  /** What `collectBatch` has gathered: exact byte count, over the request only when alone. */
  ghost predicate Gathered(mode: Encoding.Mode, maxBytes: int, held: seq<Submission>, bytes: int) {
    && |held| > 0
    && AllWellSized(mode, held)
    && bytes == BatchSize(mode, held)
    && (|held| > 1 ==> FitsLimit(maxBytes, bytes))
  }

  ghost predicate ConsumerSound(q: Queue) {
    match q.consumer
    case Outside => true
    case TryPending(call) => call.closing ==> q.closed
    case TryItem(call) => q.pending.None? && (call.closing ==> q.closed)
    case Selecting(call) => q.pending.None?
    case Collecting(maxBytes, held, bytes) => q.pending.None? && Gathered(q.mode, maxBytes, held, bytes)
    case PushingBack(maxBytes, held, bytes, _) => q.pending.None? && Gathered(q.mode, maxBytes, held, bytes)
    case Releasing(maxBytes, held, bytes, owed) =>
      Gathered(q.mode, maxBytes, held, bytes) && 1 <= owed <= |held| <= q.maxRequests
    case Answered(maxBytes, Got(subs, bytes)) => Gathered(q.mode, maxBytes, subs, bytes) && |subs| <= q.maxRequests
    case Answered(_, TimedOut) => true
    case Answered(_, Drained) => IsDrained(q)
  }

  /** Closed and empty for good. */
  ghost predicate IsDrained(q: Queue) {
    q.closed && q.items == [] && q.pending.None? && InHand(q.consumer) == []
  }

  ghost predicate ProducersSound(q: Queue) {
    forall p :: 0 <= p < |q.producers| ==> (!q.producers[p].Idle? ==> WellSized(q.mode, q.producers[p].s))
  }

  ghost predicate Inv(q: Queue) {
    && SlotsAccounted(q)
    && NothingLost(q)
    && ConsumerSound(q)
    && ProducersSound(q)
    && AllWellSized(q.mode, q.accepted)
  }
}
