/** The double commit is one the client really runs into: the delivery loop itself, with its
    deadlines and an exact clock, beside a Doris that keeps all its promises. */
module DoubleCommit {
  import opened Seqs
  import opened Replies
  import opened LabelProtocol
  import opened LabelSafety
  import opened Worlds
  import opened Polling
  import opened DeliveryLoops

  /** The first upload's answer is lost, no poll gets through, the second upload is
      answered. Sleeps are exact and reading the clock takes no time. */
  function LostAnswer(next: Label): Env {
    Env(n => if n == 0 then TransportFailed else LOADED, _ => 1, _ => PollDialFailed, _ => 1, _ => 0, _ => 0, _ => next)
  }

  function NewWorld(now: int): World {
    World(now, 0, 0, 0, 0, 0)
  }

  /** Where the delivery can be in that environment. */
  predicate Shape(first: Label, next: Label, d: Delivery) {
    && d.kind.SDK? && d.attempts <= 2
    && (d.attempts == 0 ==> d == StartDelivery(SDK, first))
    && (d.attempts == 1 ==>
          match d.phase
          case Ready => Labels(d) == [first, next] && d.current == next && d.abandoned == [first]
          case Polling => OnlyLabel(first, d) && (d.lastPoll.Some? ==> d.lastPoll == Some(PollDialFailed))
          case Done(ok) => !ok
          case _ => OnlyLabel(first, d))
    && (d.attempts == 2 ==>
          (d.phase.Sending? || d.phase == Done(true)) && d.current == next && d.abandoned == [first])
  }

  predicate OnlyLabel(first: Label, d: Delivery) {
    d.current == first && d.abandoned == []
  }

  /** Uploads answered so far. */
  function Answers(d: Delivery): nat {
    if d.phase.Sending? && d.attempts > 0 then d.attempts - 1 else d.attempts
  }

  /** The events this environment can produce next. */
  predicate Follows(next: Label, d: Delivery, e: ClientEvent) {
    && ClientEnabled(d, e)
    && (e.SendReplied? ==> e.sent == if Answers(d) == 0 then TransportFailed else LOADED)
    && (e.PollReplied? ==> e.polled == PollDialFailed)
    && (e.NewLabel? ==> e.next == next)
  }

  lemma ShapeKept(first: Label, next: Label, d: Delivery, e: ClientEvent)
    requires Shape(first, next, d) && Follows(next, d, e)
    ensures Shape(first, next, ClientStep(d, e))
    ensures Answers(ClientStep(d, e)) == Answers(d) + if e.SendReplied? then 1 else 0
    ensures ClientStep(d, e).phase == Done(false) ==> e.GiveUp?
  {
    LoadedIsAccepted(SDK);
    assert SendOutcome(TransportFailed) == Rejected(LoadError(false, true));
    hide SendOutcome;
  }

  // ---- Doris beside it ------------------------------------------------------------------

  /** Doris, if each upload arrives and commits as soon as it is sent. */
  function NetAt(first: Label, next: Label, d: Delivery): Net {
    var uploaded := if d.attempts == 0 then [] else if d.attempts == 1 then [first] else [first, next];
    Net((map l | l in uploaded :: Committed),
        (set l | l in uploaded),
        uploaded,
        if d.abandoned == [] then {first} else {first, next},
        [d])
  }

  /** What delivery i said and heard in a run. */
  function Conversation(events: seq<NetEvent>, i: nat): seq<ClientEvent> {
    if |events| == 0 then []
    else
      var e := events[|events| - 1];
      Conversation(events[..|events| - 1], i) + if e.Client? && e.i == i then [e.e] else []
  }

  lemma ConversationOn(events: seq<NetEvent>, e: NetEvent)
    ensures Conversation(events + [e], 0) == Conversation(events, 0) + if e.Client? && e.i == 0 then [e.e] else []
  {
    assert (events + [e])[..|events|] == events;
  }

  /** A move other than an upload is a move of the net. */
  lemma NetFollows(first: Label, next: Label, d: Delivery, e: ClientEvent)
    requires first != next && Shape(first, next, d) && Follows(next, d, e) && !e.SendRequest?
    requires d.phase.Done? || d.abandoned == [] || d.attempts > 0
    ensures NetEnabled(NetAt(first, next, d), Client(0, e))
    ensures NetStep(NetAt(first, next, d), Client(0, e)) == NetAt(first, next, ClientStep(d, e))
  {
    var n, after := NetAt(first, next, d), ClientStep(d, e);
    assert e.SendReplied? && Answers(d) == 1 ==> StateOf(n, d.current).Committed?;
    assert after.attempts == d.attempts;
    assert [d][0 := after] == [after];
  }

  lemma SendReaches(first: Label, next: Label, d: Delivery)
    requires first != next && Shape(first, next, d) && d.phase.Ready?
    ensures var n, e := NetAt(first, next, d), Client(0, SendRequest);
            && NetEnabled(n, e)
            && NetStep(n, e) == n.(wire := n.wire + {d.current}, deliveries := [ClientStep(d, SendRequest)])
            && StateOf(n, d.current).Absent?
  {
    assert [d][0 := ClientStep(d, SendRequest)] == [ClientStep(d, SendRequest)];
  }

  lemma LandsAs(first: Label, next: Label, d: Delivery)
    requires first != next && Shape(first, next, d) && d.phase.Ready?
    ensures var n, after := NetAt(first, next, d), ClientStep(d, SendRequest);
            n.(server := n.server[d.current := Committed], wire := n.wire + {d.current},
               commits := n.commits + [d.current], deliveries := [after]) == NetAt(first, next, after)
  {
    var n, after := NetAt(first, next, d), ClientStep(d, SendRequest);
    var want := NetAt(first, next, after);
    assert n.server[d.current := Committed] == want.server;
    assert n.wire + {d.current} == want.wire;
    assert n.commits + [d.current] == want.commits;
  }

  /** An upload arrives at once, under a label Doris has not seen, and commits. */
  lemma UploadLands(first: Label, next: Label, d: Delivery, events: seq<NetEvent>) returns (more: seq<NetEvent>)
    requires first != next && Shape(first, next, d) && d.phase.Ready?
    requires RunNet(IDLE_NET, events) == Some(NetAt(first, next, d))
    ensures RunNet(IDLE_NET, more) == Some(NetAt(first, next, ClientStep(d, SendRequest)))
    ensures Conversation(more, 0) == Conversation(events, 0) + [SendRequest]
  {
    var l := d.current;
    var e1, e2, e3 := Client(0, SendRequest), Arrive(l), CommitTxn(l);
    SendReaches(first, next, d);
    LandsAs(first, next, d);
    hide Shape, NetAt, ClientStep, RunNet;
    RunOn(IDLE_NET, events, e1);
    var n1 := RunNet(IDLE_NET, events + [e1]).value;
    ArrivalRegisters(n1, l);
    RunOn(IDLE_NET, events + [e1], e2);
    RunOn(IDLE_NET, events + [e1] + [e2], e3);
    more := events + [e1] + [e2] + [e3];
    ConversationOn(events, e1);
    ConversationOn(events + [e1], e2);
    ConversationOn(events + [e1] + [e2], e3);
    assert n1.server[l := Running][l := Committed] == n1.server[l := Committed];
  }

  lemma StartsAs(first: Label, next: Label)
    ensures NetStep(IDLE_NET, Start(SDK, first)) == NetAt(first, next, StartDelivery(SDK, first))
  {
    var n, want := NetStep(IDLE_NET, Start(SDK, first)), NetAt(first, next, StartDelivery(SDK, first));
    assert n.server == want.server && n.wire == want.wire && n.used == want.used;
  }

  lemma EmbedsOne(first: Label, next: Label, d: Delivery, before: seq<NetEvent>, e: ClientEvent)
    returns (net: seq<NetEvent>)
    requires first != next && Shape(first, next, d) && Follows(next, d, e)
    requires RunNet(IDLE_NET, before) == Some(NetAt(first, next, d))
    ensures RunNet(IDLE_NET, net) == Some(NetAt(first, next, ClientStep(d, e)))
    ensures Conversation(net, 0) == Conversation(before, 0) + [e]
  {
    assert e.SendRequest? ==> d.phase.Ready?;
    assert d.phase.Done? || d.abandoned == [] || d.attempts > 0;
    hide RunNet, NetAt, Shape, NetEnabled, NetStep, ClientStep, ClientEnabled, Conversation;
    if e.SendRequest? {
      net := UploadLands(first, next, d, before);
    } else {
      NetFollows(first, next, d, e);
      RunOn(IDLE_NET, before, Client(0, e));
      ConversationOn(before, Client(0, e));
      net := before + [Client(0, e)];
    }
  }

  /** The last event of a trace in that environment, and what came before it. */
  lemma LastEvent(first: Label, next: Label, now: int, events: seq<ClientEvent>)
    requires |events| > 0
    requires RunClient(StartDelivery(SDK, first), events).Some?
    requires FromEnv(LostAnswer(next), NewWorld(now), events)
    ensures var d0, front, e := StartDelivery(SDK, first), events[..|events| - 1], events[|events| - 1];
            && FromEnv(LostAnswer(next), NewWorld(now), front)
            && RunClient(d0, front).Some?
            && var d := RunClient(d0, front).value;
               && ClientEnabled(d, e)
               && RunClient(d0, events) == Some(ClientStep(d, e))
               && SendsIn(events) == SendsIn(front) + (if e.SendReplied? then 1 else 0)
               && (SendsIn(front) == Answers(d) ==> Follows(next, d, e))
  {
    hide ClientEnabled, ClientStep, Answers;
  }

  /** The client's half: `events` take the delivery to `d`. */
  ghost predicate Reaches(first: Label, next: Label, events: seq<ClientEvent>, d: Delivery) {
    && RunClient(StartDelivery(SDK, first), events) == Some(d)
    && Shape(first, next, d) && SendsIn(events) == Answers(d)
    && (d.phase == Done(false) ==> GaveUp(events))
  }

  /** Both halves: `net` is a run of Doris in which the delivery goes through `events`. */
  ghost predicate Embedded(first: Label, next: Label, events: seq<ClientEvent>, net: seq<NetEvent>, d: Delivery) {
    && Reaches(first, next, events, d)
    && RunNet(IDLE_NET, net) == Some(NetAt(first, next, d))
    && Conversation(net, 0) == events
  }

  lemma ClientStarts(first: Label, next: Label)
    ensures Reaches(first, next, [], StartDelivery(SDK, first))
  {}

  lemma NetStarts(first: Label)
    ensures NetEnabled(IDLE_NET, Start(SDK, first))
    ensures RunNet(IDLE_NET, [Start(SDK, first)]) == Some(NetStep(IDLE_NET, Start(SDK, first)))
    ensures Conversation([Start(SDK, first)], 0) == []
  {
    RunOn(IDLE_NET, [], Start(SDK, first));
    ConversationOn([], Start(SDK, first));
    assert [] + [Start(SDK, first)] == [Start(SDK, first)];
    hide NetStep;
  }

  lemma BothStart(first: Label, next: Label)
    ensures Embedded(first, next, [], [Start(SDK, first)], StartDelivery(SDK, first))
  {
    hide Reaches, RunNet, Conversation, NetAt, NetStep, NetEnabled;
    ClientStarts(first, next);
    NetStarts(first);
    StartsAs(first, next);
  }

  /** The last event moves the client's half on. */
  lemma ClientMoves(first: Label, next: Label, now: int, events: seq<ClientEvent>, d: Delivery)
    requires |events| > 0 && Reaches(first, next, events[..|events| - 1], d)
    requires RunClient(StartDelivery(SDK, first), events).Some?
    requires FromEnv(LostAnswer(next), NewWorld(now), events)
    ensures Follows(next, d, events[|events| - 1]) && ClientEnabled(d, events[|events| - 1])
    ensures Reaches(first, next, events, ClientStep(d, events[|events| - 1]))
  {
    LastEvent(first, next, now, events);
    ShapeKept(first, next, d, events[|events| - 1]);
    hide RunClient, FromEnv, SendsIn, ClientStep, Shape, ClientEnabled, Answers;
  }

  lemma BothMove(first: Label, next: Label, now: int, events: seq<ClientEvent>, before: seq<NetEvent>, d: Delivery)
    returns (net: seq<NetEvent>, moved: Delivery)
    requires first != next && |events| > 0
    requires RunClient(StartDelivery(SDK, first), events).Some?
    requires FromEnv(LostAnswer(next), NewWorld(now), events)
    requires Embedded(first, next, events[..|events| - 1], before, d)
    ensures Embedded(first, next, events, net, moved)
  {
    hide FromEnv, RunClient, Shape, NetAt, RunNet, Conversation, ClientStep, ClientEnabled, Follows, SendsIn, Answers,
         GaveUp;
    var front, e := events[..|events| - 1], events[|events| - 1];
    assert events == front + [e];
    ClientMoves(first, next, now, events, d);
    net := EmbedsOne(first, next, d, before, e);
    moved := ClientStep(d, e);
    hide Reaches;
  }

  /** Every trace in that environment is one half of a run beside Doris. */
  lemma {:induction false} Embeds(first: Label, next: Label, now: int, events: seq<ClientEvent>)
    returns (net: seq<NetEvent>, d: Delivery)
    requires first != next
    requires RunClient(StartDelivery(SDK, first), events).Some?
    requires FromEnv(LostAnswer(next), NewWorld(now), events)
    ensures Embedded(first, next, events, net, d)
  {
    hide Embedded;
    if |events| == 0 {
      assert events == [];
      BothStart(first, next);
      net, d := [Start(SDK, first)], StartDelivery(SDK, first);
    } else {
      LastEvent(first, next, now, events);
      hide FromEnv, RunClient;
      var before, m := Embeds(first, next, now, events[..|events| - 1]);
      net, d := BothMove(first, next, now, events, before, m);
    }
  }

  lemma CommittedUnderBoth(first: Label, next: Label, d: Delivery)
    requires first != next && Shape(first, next, d) && d.attempts == 2
    ensures CommitCount(NetAt(first, next, d).commits, Labels(d)) == 2
  {
    var commits, labels := [first, next], Labels(d);
    assert labels == [first, next];
    assert labels[..1] == [first] && [first][..0] == [];
    assert multiset(commits) == multiset{first, next};
    assert CommitCount(commits, [first]) == 1;
  }

  /** In that environment the delivery loop of the client, whatever its timings, ends in
      success after two uploads, and `net` is a run of Doris in which it does so and both
      uploads have been committed. */
  method DeliversTwice(t: Timings, now: int, first: Label, next: Label)
    returns (result: DeliveryResult, events: seq<ClientEvent>, ghost net: seq<NetEvent>)
    requires ValidTimings(t) && first != next
    ensures result.err.None? && result.attempts == 2
    ensures Conversation(net, 0) == events
    ensures RunNet(IDLE_NET, net).Some?
    ensures var n := RunNet(IDLE_NET, net).value;
            && |n.deliveries| == 1 && n.deliveries[0].phase == Done(true)
            && n.deliveries[0].abandoned == [first]
            && CommitCount(n.commits, Labels(n.deliveries[0])) == 2
  {
    var env := LostAnswer(next);
    var w, startedAt, retryDeadline, after;
    ghost var ends;
    result, w, startedAt, retryDeadline, events, after, ends := DeliverBatch(t, env, NewWorld(now), first);
    ghost var d;
    net, d := Embeds(first, next, now, events);
    assert ExactClock(env);
    assert d == after;
    assert after.attempts == 2 && after.phase == Done(true);
    hide RunNet, FromEnv, RunClient, Conversation;
    CommittedUnderBoth(first, next, after);
  }
}
