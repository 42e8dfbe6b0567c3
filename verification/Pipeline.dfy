/** The client as a whole: producers and intake queue, the batcher goroutine, the dispatch
    channel, upload workers, completions and callbacks. One event is one atomic action. */
module Pipeline {
  import Encoding
  import Q = QueueSteps
  import opened Seqs
  import opened Submissions
  import opened Packing
  import opened DeliveryLoops

  datatype Config = Config(mode: Encoding.Mode, batchBytes: int, linger: int, dispatchSize: nat)

  /** What follows once the open batch has gone into the dispatch channel. */
  datatype After = AddNext(rest: seq<Submission>) | Continue(rest: seq<Submission>) | ToOuter | ToEnd

  datatype BatcherPc =
    | OuterCall
    | OuterWait
    | Adding(rest: seq<Submission>)
    | DrainCheck
    | DrainWait
    | Sealing(after: After)
    | Finished

  /** `log` is the history the packing fold is taken over; `handles` maps a submission to
      the batch its handle was attached to. */
  datatype Batcher = Batcher(
    pc: BatcherPc,
    open: seq<Submission>,
    createdAt: int,
    timeout: int,
    timerAt: int,
    log: seq<Token>,
    handles: map<nat, nat>)

  /** The dispatch channel: all batches ever sent into it, in order. */
  datatype Dispatch = Dispatch(sealed: seq<seq<Submission>>, closed: bool)

  datatype WorkerPc = Waiting | Delivering(k: nat) | Calling(k: nat, result: DeliveryResult) | Stopped

  /** A callback run: for the j-th submission of batch k, with this result. */
  datatype Call = Call(k: nat, j: nat, result: DeliveryResult)

  /** `owner[k]` is the worker that received batch k; `progress[k]` counts the submissions
      of batch k whose callback has been dealt with. */
  datatype Workers = Workers(
    pcs: seq<WorkerPc>,
    owner: seq<nat>,
    completions: map<nat, DeliveryResult>,
    progress: map<nat, nat>,
    calls: seq<Call>)

  datatype Client = Client(cfg: Config, now: int, q: Q.Queue, b: Batcher, d: Dispatch, w: Workers)

  datatype Event =
    | Queue(e: Q.Event)
    | Tick(nanos: nat)
    | Batch
    | Take(i: nat)
    | Stop(i: nat)
    | Conclude(i: nat, result: DeliveryResult)
    | Callback(i: nat)

  function NewClient(cfg: Config, maxQueueSize: nat, producers: nat, workers: nat): Client {
    Client(cfg, 0, Q.NewQueue(cfg.mode, maxQueueSize, producers),
           Batcher(OuterCall, [], 0, 0, 0, [], map[]),
           Dispatch([], false),
           Workers(seq(workers, _ => Waiting), [], map[], map[], []))
  }

  // ---- the queue, seen from the client ------------------------------------------

  /** Producers enqueue what admission let through; the timer fires when it is due; the
      batcher alone starts dequeues and takes answers. */
  predicate QueueEnabled(c: Client, e: Q.Event) {
    && Q.Enabled(c.q, e)
    && !e.BeginDequeue? && !e.TakeAnswer?
    && (e.BeginEnqueue? ==> FitsLimit(c.cfg.batchBytes, e.s.standaloneByteSize))
    && (e.SelectTimer? ==> c.now >= c.b.timerAt)
  }

  /** Entering the select of a timed wait starts its timer. */
  function QueueStep(c: Client, e: Q.Event): Client
    requires QueueEnabled(c, e)
  {
    var q := Q.Step(c.q, e);
    var armed := e.CheckItem? && q.consumer.Selecting?;
    c.(q := q, b := if armed then c.b.(timerAt := c.now + c.b.timeout) else c.b)
  }

  // ---- the batcher ----------------------------------------------------------------

  function Capacity(c: Client): int {
    c.cfg.dispatchSize - (|c.d.sealed| - |c.w.owner|)
  }

  predicate BatchEnabled(c: Client) {
    match c.b.pc
    case OuterCall => c.q.consumer.Outside?
    case OuterWait => c.q.consumer.Answered?
    case Adding(_) => true
    case DrainCheck => c.q.consumer.Outside?
    case DrainWait => c.q.consumer.Answered?
    case Sealing(_) => Capacity(c) > 0
    case Finished => false
  }

  /** attach gives a handle its first completion only. */
  function AttachHandle(handles: map<nat, nat>, id: nat, k: nat): map<nat, nat> {
    if id in handles then handles else handles[id := k]
  }

  /** Put `rest[0]` into the open batch, which is or will be number `k`. */
  function Place(cfg: Config, b: Batcher, now: int, rest: seq<Submission>, k: nat): Batcher
    requires |rest| > 0
  {
    var s := rest[0];
    var open := b.open + [s];
    b.(pc := if IsFull(cfg.mode, cfg.batchBytes, open) then Sealing(Continue(rest[1..])) else Adding(rest[1..]),
       open := open,
       createdAt := if |b.open| == 0 then now else b.createdAt,
       log := b.log + [Arrive(s)],
       handles := AttachHandle(b.handles, s.id, k))
  }

  function FlushThen(b: Batcher, after: After): Batcher {
    b.(pc := Sealing(after), log := b.log + [Flush])
  }

  function AddStep(c: Client): Client
    requires c.b.pc.Adding?
  {
    var rest := c.b.pc.rest;
    if |rest| == 0 then c.(b := c.b.(pc := DrainCheck))
    else if MustFlushFirst(c.cfg.mode, c.cfg.batchBytes, c.b.open, rest[0])
    then c.(b := c.b.(pc := Sealing(AddNext(rest))))
    else c.(b := Place(c.cfg, c.b, c.now, rest, |c.d.sealed|))
  }

  function SealStep(c: Client): Client
    requires c.b.pc.Sealing?
  {
    var sealed := c.d.sealed + [c.b.open];
    var emptied := c.b.(open := []);
    match c.b.pc.after
    case AddNext(rest) =>
      if |rest| == 0 then c.(d := c.d.(sealed := sealed), b := emptied.(pc := Adding([])))
      else c.(d := c.d.(sealed := sealed), b := Place(c.cfg, emptied, c.now, rest, |sealed|))
    case Continue(rest) => c.(d := c.d.(sealed := sealed), b := emptied.(pc := Adding(rest)))
    case ToOuter => c.(d := c.d.(sealed := sealed), b := emptied.(pc := OuterCall))
    case ToEnd => c.(d := Dispatch(sealed, true), b := emptied.(pc := Finished))
  }

  function DrainStep(c: Client): Client
    requires c.b.pc.DrainCheck? && c.q.consumer.Outside?
  {
    var lingerRemaining := c.cfg.linger - (c.now - c.b.createdAt);
    var remaining := c.cfg.batchBytes - BatchSize(c.cfg.mode, c.b.open);
    if |c.b.open| == 0 then c.(b := c.b.(pc := OuterCall))
    else if lingerRemaining <= 0 then c.(b := FlushThen(c.b, ToOuter))
    else if c.cfg.batchBytes > 0 && remaining <= 0 then c.(b := FlushThen(c.b, ToOuter))
    else c.(q := Q.ConsumerStep(c.q, Q.BeginDequeue(remaining, true)),
            b := c.b.(pc := DrainWait, timeout := lingerRemaining))
  }

  function AnswerStep(c: Client): Client
    requires c.q.consumer.Answered?
  {
    var taken := c.(q := Q.ConsumerStep(c.q, Q.TakeAnswer));
    match c.q.consumer.answer
    case Got(subs, _) => taken.(b := c.b.(pc := Adding(subs)))
    case TimedOut =>
      if |c.b.open| == 0 then taken.(b := c.b.(pc := OuterCall))
      else taken.(b := FlushThen(c.b, ToOuter))
    case Drained =>
      if |c.b.open| == 0 then taken.(d := c.d.(closed := true), b := c.b.(pc := Finished))
      else taken.(b := FlushThen(c.b, ToEnd))
  }

  function BatchStep(c: Client): Client
    requires BatchEnabled(c)
  {
    match c.b.pc
    case OuterCall =>
      c.(q := Q.ConsumerStep(c.q, Q.BeginDequeue(c.cfg.batchBytes, false)), b := c.b.(pc := OuterWait))
    case OuterWait => AnswerStep(c)
    case Adding(_) => AddStep(c)
    case DrainCheck => DrainStep(c)
    case DrainWait => AnswerStep(c)
    case Sealing(_) => SealStep(c)
  }

  // ---- workers --------------------------------------------------------------------

  predicate WorkerEnabled(d: Dispatch, w: Workers, e: Event) {
    match e
    case Take(i) => i < |w.pcs| && w.pcs[i].Waiting? && |w.owner| < |d.sealed|
    case Stop(i) => i < |w.pcs| && w.pcs[i].Waiting? && |w.owner| >= |d.sealed| && d.closed
    case Conclude(i, _) => i < |w.pcs| && w.pcs[i].Delivering?
    case Callback(i) => i < |w.pcs| && w.pcs[i].Calling?
    case _ => false
  }

  /** The first completion of a batch is its result for good. */
  function CompleteOnce(done: map<nat, DeliveryResult>, k: nat, result: DeliveryResult): map<nat, DeliveryResult> {
    if k in done then done else done[k := result]
  }

  function WorkerStep(d: Dispatch, w: Workers, e: Event): Workers
    requires WorkerEnabled(d, w, e)
  {
    match e
    case Take(i) => w.(pcs := w.pcs[i := Delivering(|w.owner|)], owner := w.owner + [i])
    case Stop(i) => w.(pcs := w.pcs[i := Stopped])
    case Conclude(i, result) =>
      var k := w.pcs[i].k;
      var subs := if k < |d.sealed| then d.sealed[k] else [];
      var calls := AnyCallback(subs);
      w.(pcs := w.pcs[i := if calls then Calling(k, result) else Waiting],
         completions := CompleteOnce(w.completions, k, result),
         progress := w.progress[k := if calls then 0 else |subs|])
    case Callback(i) =>
      var k, result := w.pcs[i].k, w.pcs[i].result;
      var j := if k in w.progress then w.progress[k] else 0;
      if k >= |d.sealed| || j >= |d.sealed[k]| then w.(pcs := w.pcs[i := Waiting])
      else w.(progress := w.progress[k := j + 1],
              calls := if d.sealed[k][j].hasCallback then w.calls + [Call(k, j, result)] else w.calls)
  }

  // ---- runs -------------------------------------------------------------------------

  predicate Enabled(c: Client, e: Event) {
    match e
    case Queue(q) => QueueEnabled(c, q)
    case Tick(_) => true
    case Batch => BatchEnabled(c)
    case _ => WorkerEnabled(c.d, c.w, e)
  }

  function Step(c: Client, e: Event): Client
    requires Enabled(c, e)
  {
    match e
    case Queue(q) => QueueStep(c, q)
    case Tick(nanos) => c.(now := c.now + nanos)
    case Batch => BatchStep(c)
    case _ => c.(w := WorkerStep(c.d, c.w, e))
  }

  function Run(c: Client, events: seq<Event>): Option<Client> {
    if |events| == 0 then Some(c)
    else match Run(c, events[..|events| - 1])
      case None => None
      case Some(m) =>
        var e := events[|events| - 1];
        if Enabled(m, e) then Some(Step(m, e)) else None
  }

  // ---- what the invariants say --------------------------------------------------------

  /** The packer state the goroutine stands for: once it has decided to seal, it has sealed. */
  function View(d: Dispatch, b: Batcher): Packer {
    if b.pc.Sealing? && !b.pc.after.AddNext? then Packer(d.sealed + [b.open], [])
    else Packer(d.sealed, b.open)
  }

  /** Dequeued submissions the adding loop has not reached yet. */
  function Rest(pc: BatcherPc): seq<Submission> {
    match pc
    case Adding(rest) => rest
    case Sealing(AddNext(rest)) => rest
    case Sealing(Continue(rest)) => rest
    case _ => []
  }

  /** Submissions in an answer the batcher has not taken yet. */
  function InAnswer(c: Q.Consumer): seq<Submission> {
    match c
    case Answered(_, Got(subs, _)) => subs
    case _ => []
  }

  predicate Waits(pc: BatcherPc) {
    pc.OuterWait? || pc.DrainWait?
  }
}
