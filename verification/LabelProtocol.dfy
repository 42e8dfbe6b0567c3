/** Deliveries and Doris: labels, lost replies, polling, fresh labels. Any number of
    deliveries run beside an abstract server; one event is one message or one decision.
    Time is left out: every decision a deadline can force is allowed at any moment. */
module LabelProtocol {
  import opened Seqs
  import opened Replies

  type Label = nat

  datatype ClientKind = SDK | Demo

  datatype Phase = Ready | Sending | Polling | NeedLabel | Done(ok: bool)

  /** One batch on its way. `abandoned` lists the labels it used before `current`. */
  datatype Delivery = Delivery(
    kind: ClientKind,
    phase: Phase,
    current: Label,
    abandoned: seq<Label>,
    lastPoll: Option<PollReply>,
    attempts: nat)

  datatype ClientEvent =
    | SendRequest
    | SendReplied(sent: SendReply)
    | PollReplied(polled: PollReply)
    | PollExpired
    | NewLabel(next: Label)
    | GiveUp

  function StartDelivery(kind: ClientKind, l: Label): Delivery {
    Delivery(kind, Ready, l, [], None, 0)
  }

  function ReadSend(kind: ClientKind, reply: SendReply): Outcome {
    match kind
    case SDK => SendOutcome(reply)
    case Demo => DemoOutcome(reply)
  }

  predicate ClientEnabled(d: Delivery, e: ClientEvent) {
    match e
    case SendRequest => d.phase.Ready?
    case SendReplied(_) => d.phase.Sending?
    case PollReplied(_) => d.phase.Polling?
    case PollExpired => d.phase.Polling? && d.lastPoll.Some?
    case NewLabel(_) => d.phase.NeedLabel?
    case GiveUp => (d.phase.Ready? || d.phase.NeedLabel?) && d.attempts > 0
  }

  function ClientStep(d: Delivery, e: ClientEvent): Delivery
    requires ClientEnabled(d, e)
  {
    match e
    case SendRequest => d.(phase := Sending, attempts := d.attempts + 1)
    case SendReplied(reply) =>
      (match ReadSend(d.kind, reply)
       case Accepted => d.(phase := Done(true))
       case Rejected(err) =>
         if err.ambiguous then d.(phase := Polling, lastPoll := None)
         else if err.retriable then d.(phase := Ready)
         else d.(phase := Done(false)))
    case PollReplied(reply) =>
      if SaysVisible(reply) then d.(phase := Done(true))
      else if SaysGone(reply) then d.(phase := NeedLabel)
      else d.(lastPoll := Some(reply))
    case PollExpired =>
      // The client hands the last poll error on as it is; the demo stops.
      if d.kind.SDK? && ExpiryError(d.lastPoll.value).retriable then d.(phase := NeedLabel)
      else d.(phase := Done(false))
    case NewLabel(l) => d.(phase := Ready, current := l, abandoned := d.abandoned + [d.current], lastPoll := None)
    case GiveUp => d.(phase := Done(false))
  }

  function RunClient(d: Delivery, events: seq<ClientEvent>): Option<Delivery> {
    if |events| == 0 then Some(d)
    else match RunClient(d, events[..|events| - 1])
      case None => None
      case Some(m) =>
        var e := events[|events| - 1];
        if ClientEnabled(m, e) then Some(ClientStep(m, e)) else None
  }

  // ---- the server -------------------------------------------------------------

  /** `Never`: not registered, now or later. */
  datatype LabelState = Absent | Running | Committed | Aborted | Never

  /** `wire`: labels some request was sent under; it may arrive at any later time, or
      several times. `commits`: every commit Doris makes, in order. */
  datatype Net = Net(
    server: map<Label, LabelState>,
    wire: set<Label>,
    commits: seq<Label>,
    used: set<Label>,
    deliveries: seq<Delivery>)

  datatype NetEvent =
    | Start(kind: ClientKind, l: Label)
    | Client(i: nat, e: ClientEvent)
    | Arrive(l: Label)
    | CommitTxn(l: Label)
    | AbortTxn(l: Label)
    | Forget(l: Label)

  const IDLE_NET := Net(map[], {}, [], {}, [])

  function StateOf(n: Net, l: Label): LabelState {
    if l in n.server then n.server[l] else Absent
  }

  predicate IsDead(s: LabelState) {
    s.Aborted? || s.Never?
  }

  /** What the server may answer about a label in state `s`. */
  predicate Truthful(e: ClientEvent, s: LabelState) {
    match e
    case SendReplied(reply) => SaysLoaded(reply) ==> s.Committed?
    case PollReplied(reply) => TruthfulPoll(reply, s)
    case _ => true
  }

  predicate TruthfulPoll(reply: PollReply, s: LabelState) {
    && (reply == PollState(VISIBLE) ==> s.Committed?)
    && (reply == PollState(COMMITTED) ==> s.Committed?)
    && (reply == PollState(ABORTED) ==> s.Aborted?)
    && (reply == PollState(UNKNOWN) ==> s.Never?)
  }

  predicate NetEnabled(n: Net, e: NetEvent) {
    match e
    case Start(_, l) => l !in n.used
    case Client(i, c) =>
      && i < |n.deliveries|
      && ClientEnabled(n.deliveries[i], c)
      && Truthful(c, StateOf(n, n.deliveries[i].current))
      && (c.NewLabel? ==> c.next !in n.used)
    case Arrive(l) => l in n.wire
    case CommitTxn(l) => StateOf(n, l).Running?
    case AbortTxn(l) => StateOf(n, l).Running?
    case Forget(l) => l in n.used && StateOf(n, l).Absent?
  }

  function NetStep(n: Net, e: NetEvent): Net
    requires NetEnabled(n, e)
  {
    match e
    case Start(kind, l) => n.(used := n.used + {l}, deliveries := n.deliveries + [StartDelivery(kind, l)])
    case Client(i, c) =>
      var d := n.deliveries[i];
      var moved := n.(deliveries := n.deliveries[i := ClientStep(d, c)]);
      (match c
       case SendRequest => moved.(wire := n.wire + {d.current})
       case NewLabel(l) => moved.(used := n.used + {l})
       case _ => moved)
    case Arrive(l) => if StateOf(n, l).Absent? then n.(server := n.server[l := Running]) else n
    case CommitTxn(l) => n.(server := n.server[l := Committed], commits := n.commits + [l])
    case AbortTxn(l) => n.(server := n.server[l := Aborted])
    case Forget(l) => n.(server := n.server[l := Never])
  }

  function RunNet(n: Net, events: seq<NetEvent>): Option<Net> {
    if |events| == 0 then Some(n)
    else match RunNet(n, events[..|events| - 1])
      case None => None
      case Some(m) =>
        var e := events[|events| - 1];
        if NetEnabled(m, e) then Some(NetStep(m, e)) else None
  }

  /** A poll window that closes on a failed dial, after which the client takes a new label. */
  predicate IsDialExpiry(n: Net, e: NetEvent) {
    && e.Client? && e.e.PollExpired? && e.i < |n.deliveries|
    && n.deliveries[e.i].kind.SDK? && n.deliveries[e.i].lastPoll == Some(PollDialFailed)
  }

  /** ... and the label given up may still commit. */
  predicate GivesUpLive(n: Net, e: NetEvent) {
    IsDialExpiry(n, e) && !IsDead(StateOf(n, n.deliveries[e.i].current))
  }

  predicate NeverGivesUpLive(n: Net, events: seq<NetEvent>) {
    forall k :: 0 <= k < |events| ==>
      match RunNet(n, events[..k])
      case None => true
      case Some(m) => !GivesUpLive(m, events[k])
  }

  // ---- the promise --------------------------------------------------------------

  function Labels(d: Delivery): seq<Label> {
    d.abandoned + [d.current]
  }

  /** How often Doris committed under any of `labels`. */
  function CommitCount(commits: seq<Label>, labels: seq<Label>): nat {
    if |labels| == 0 then 0
    else CommitCount(commits, labels[..|labels| - 1]) + multiset(commits)[labels[|labels| - 1]]
  }

  ghost predicate DeliverySound(n: Net, d: Delivery) {
    && (forall k :: 0 <= k < |d.abandoned| ==> d.abandoned[k] in n.used && IsDead(StateOf(n, d.abandoned[k])))
    && d.current in n.used
    && (d.phase.NeedLabel? ==> IsDead(StateOf(n, d.current)))
    && (d.phase == Done(true) ==> StateOf(n, d.current).Committed?)
    && (d.phase.Polling? ==> d.current in n.wire)
    && (d.phase.Sending? ==> d.current in n.wire)
  }

  ghost predicate ServerSound(n: Net) {
    && (forall l :: multiset(n.commits)[l] == if StateOf(n, l).Committed? then 1 else 0)
    && (forall l :: l in n.server || l in n.wire ==> l in n.used)
  }

  ghost predicate NetInv(n: Net) {
    ServerSound(n) && forall i :: 0 <= i < |n.deliveries| ==> DeliverySound(n, n.deliveries[i])
  }
}
