/** At most one commit per batch, and success only with one: for every run, with the one
    condition the client needs, the proof that it needs it, and none for the demo. */
module LabelSafety {
  import opened Seqs
  import opened Replies
  import opened LabelProtocol

  // ---- how replies are read -------------------------------------------------------

  /** A polling client concludes success exactly on the replies that only a committed label
      can get, takes a new label exactly on those only a dead one can get, and polls on
      exactly on those a label still running can get. */
  lemma PollIsReadRight(d: Delivery, reply: PollReply)
    requires d.phase.Polling?
    ensures var after := ClientStep(d, PollReplied(reply));
            && (after.phase == Done(true) <==> forall s :: TruthfulPoll(reply, s) ==> s.Committed?)
            && (after.phase.NeedLabel? <==> forall s :: TruthfulPoll(reply, s) ==> IsDead(s))
            && (after.phase.Polling? <==> TruthfulPoll(reply, Running))
            && (after.phase.Polling? ==> after == d.(lastPoll := Some(reply)))
  {
    assert TruthfulPoll(reply, Committed) || TruthfulPoll(reply, Aborted) || TruthfulPoll(reply, Never);
    assert !(reply.PollState? && reply.state in {VISIBLE, COMMITTED, ABORTED, UNKNOWN}) ==>
             TruthfulPoll(reply, Running);
  }

  /** An uploading client concludes success exactly on the replies that only a committed label
      can get. */
  lemma SendIsReadRight(d: Delivery, reply: SendReply)
    requires d.phase.Sending?
    ensures ClientStep(d, SendReplied(reply)).phase == Done(true) <==>
            forall s :: Truthful(SendReplied(reply), s) ==> s.Committed?
  {
    SuccessIsOnlyOnEvidence(reply);
    assert !SaysLoaded(reply) ==> Truthful(SendReplied(reply), Running);
    hide SendOutcome, DemoOutcome, SaysLoaded;
  }

  // ---- one event at a time ------------------------------------------------------

  /** Dead labels stay dead and committed labels stay committed, whatever happens next. */
  lemma FateIsFinal(n: Net, e: NetEvent, l: Label)
    requires NetEnabled(n, e)
    ensures IsDead(StateOf(n, l)) ==> StateOf(NetStep(n, e), l) == StateOf(n, l)
    ensures StateOf(n, l).Committed? ==> StateOf(NetStep(n, e), l).Committed?
  {}

  lemma StepKeepsServer(n: Net, e: NetEvent)
    requires ServerSound(n) && NetEnabled(n, e)
    requires forall i :: 0 <= i < |n.deliveries| ==> n.deliveries[i].current in n.used
    ensures ServerSound(NetStep(n, e))
  {
    var r := NetStep(n, e);
    if e.CommitTxn? {
      assert multiset(r.commits) == multiset(n.commits) + multiset{e.l};
    }
    forall l: Label
      ensures multiset(r.commits)[l] == if StateOf(r, l).Committed? then 1 else 0
    {
      assert multiset(n.commits)[l] == if StateOf(n, l).Committed? then 1 else 0;
    }
  }

  lemma OthersStaySound(n: Net, e: NetEvent, d: Delivery)
    requires NetEnabled(n, e) && DeliverySound(n, d)
    ensures DeliverySound(NetStep(n, e), d)
  {
    var r := NetStep(n, e);
    FateIsFinal(n, e, d.current);
    forall k | 0 <= k < |d.abandoned|
      ensures d.abandoned[k] in r.used && IsDead(StateOf(r, d.abandoned[k]))
    {
      FateIsFinal(n, e, d.abandoned[k]);
    }
    assert n.used <= r.used && n.wire <= r.wire;
    hide NetStep;
  }

  /** The acting delivery keeps its promise, except when it abandons a live label. */
  lemma ActorStaysSound(n: Net, i: nat, c: ClientEvent)
    requires NetEnabled(n, Client(i, c)) && DeliverySound(n, n.deliveries[i])
    requires !GivesUpLive(n, Client(i, c))
    ensures DeliverySound(NetStep(n, Client(i, c)), ClientStep(n.deliveries[i], c))
  {
    var d := n.deliveries[i];
    if c.SendReplied? {
      SuccessIsOnlyOnEvidence(c.sent);
    }
    var r := NetStep(n, Client(i, c));
    assert r.server == n.server;
    assert forall l :: StateOf(r, l) == StateOf(n, l);
    if c.NewLabel? {
      var a := ClientStep(d, c).abandoned;
      assert forall k :: 0 <= k < |d.abandoned| ==> a[k] == d.abandoned[k];
      assert a[|d.abandoned|] == d.current;
    }
    hide StateOf, SendOutcome, DemoOutcome, SaysLoaded;
  }

  lemma StepKeepsNet(n: Net, e: NetEvent)
    requires NetInv(n) && NetEnabled(n, e)
    requires !GivesUpLive(n, e)
    ensures NetInv(NetStep(n, e))
  {
    StepKeepsServer(n, e);
    var r := NetStep(n, e);
    forall i | 0 <= i < |r.deliveries|
      ensures DeliverySound(r, r.deliveries[i])
    {
      if e.Client? && e.i == i {
        ActorStaysSound(n, i, e.e);
      } else if i < |n.deliveries| {
        OthersStaySound(n, e, n.deliveries[i]);
      }
    }
  }

  // ---- every run ------------------------------------------------------------------

  lemma {:induction false} RunKeepsNet(n: Net, events: seq<NetEvent>)
    requires NetInv(n) && RunNet(n, events).Some? && NeverGivesUpLive(n, events)
    ensures NetInv(RunNet(n, events).value)
  {
    if |events| == 0 {
    } else {
      var front, e := events[..|events| - 1], events[|events| - 1];
      assert forall k :: 0 <= k < |front| ==> front[..k] == events[..k] && front[k] == events[k];
      RunKeepsNet(n, front);
      assert events[..|events| - 1] == front;
      StepKeepsNet(RunNet(n, front).value, e);
    }
  }

  lemma {:induction false} DeadLabelsCountNothing(n: Net, labels: seq<Label>)
    requires ServerSound(n)
    requires forall k :: 0 <= k < |labels| ==> IsDead(StateOf(n, labels[k]))
    ensures CommitCount(n.commits, labels) == 0
  {
    if |labels| == 0 {
    } else {
      DeadLabelsCountNothing(n, labels[..|labels| - 1]);
    }
  }

  lemma SoundMeansAtMostOnce(n: Net, d: Delivery)
    requires ServerSound(n) && DeliverySound(n, d)
    ensures CommitCount(n.commits, Labels(d)) <= 1
    ensures d.phase == Done(true) ==> CommitCount(n.commits, Labels(d)) == 1
    ensures forall k :: 0 <= k < |d.abandoned| ==> IsDead(StateOf(n, d.abandoned[k]))
  {
    DeadLabelsCountNothing(n, d.abandoned);
    assert Labels(d)[..|Labels(d)| - 1] == d.abandoned;
  }

  /** Of a sound delivery's labels only the present one can have committed. */
  lemma CommittedIsCurrent(n: Net, d: Delivery, l: Label)
    requires DeliverySound(n, d) && l in Labels(d) && StateOf(n, l).Committed?
    ensures l == d.current
  {
    forall k | 0 <= k < |d.abandoned|
      ensures d.abandoned[k] != l
    {
      assert IsDead(StateOf(n, d.abandoned[k]));
    }
  }

  /** In every run in which no poll window that closes on a failed dial gives up a live
      label: no batch is committed twice, a batch reported successful is committed exactly
      once, and a label that was given up never commits. */
  lemma AtMostOnce(events: seq<NetEvent>, i: nat)
    requires RunNet(IDLE_NET, events).Some? && NeverGivesUpLive(IDLE_NET, events)
    requires i < |RunNet(IDLE_NET, events).value.deliveries|
    ensures var n := RunNet(IDLE_NET, events).value;
            var d := n.deliveries[i];
            && CommitCount(n.commits, Labels(d)) <= 1
            && (d.phase == Done(true) ==> CommitCount(n.commits, Labels(d)) == 1)
            && (forall k :: 0 <= k < |d.abandoned| ==> IsDead(StateOf(n, d.abandoned[k])))
  {
    assert NetInv(IDLE_NET);
    RunKeepsNet(IDLE_NET, events);
    var n := RunNet(IDLE_NET, events).value;
    SoundMeansAtMostOnce(n, n.deliveries[i]);
  }

  predicate OnlyDemo(n: Net) {
    forall i :: 0 <= i < |n.deliveries| ==> n.deliveries[i].kind.Demo?
  }

  lemma {:induction false} DemoStaysDemo(n: Net, events: seq<NetEvent>)
    requires OnlyDemo(n) && RunNet(n, events).Some?
    requires forall k :: 0 <= k < |events| ==> events[k].Start? ==> events[k].kind.Demo?
    ensures OnlyDemo(RunNet(n, events).value)
    ensures NeverGivesUpLive(n, events)
  {
    if |events| == 0 {
    } else {
      var front, e := events[..|events| - 1], events[|events| - 1];
      assert forall k :: 0 <= k < |front| ==> front[..k] == events[..k] && front[k] == events[k];
      DemoStaysDemo(n, front);
      DemoStep(RunNet(n, front).value, e);
      hide OnlyDemo, IsDialExpiry, NetStep, NetEnabled;
    }
  }

  lemma DemoStep(n: Net, e: NetEvent)
    requires OnlyDemo(n) && NetEnabled(n, e) && (e.Start? ==> e.kind.Demo?)
    ensures OnlyDemo(NetStep(n, e)) && !IsDialExpiry(n, e)
  {
    assert e.Client? ==> ClientStep(n.deliveries[e.i], e.e).kind == n.deliveries[e.i].kind;
    hide ClientStep, ClientEnabled;
  }

  /** The plain demo treats a failed poll as fatal, so it needs no condition. */
  lemma DemoAtMostOnce(events: seq<NetEvent>, i: nat)
    requires RunNet(IDLE_NET, events).Some?
    requires forall k :: 0 <= k < |events| ==> events[k].Start? ==> events[k].kind.Demo?
    requires i < |RunNet(IDLE_NET, events).value.deliveries|
    ensures var n := RunNet(IDLE_NET, events).value;
            var d := n.deliveries[i];
            CommitCount(n.commits, Labels(d)) <= 1 && (d.phase == Done(true) ==> CommitCount(n.commits, Labels(d)) == 1)
  {
    DemoStaysDemo(IDLE_NET, events);
    AtMostOnce(events, i);
  }

  // ---- the condition is needed ------------------------------------------------------

  lemma RunOn(n: Net, events: seq<NetEvent>, e: NetEvent)
    requires RunNet(n, events).Some? && NetEnabled(RunNet(n, events).value, e)
    ensures RunNet(n, events + [e]) == Some(NetStep(RunNet(n, events).value, e))
  {
    assert (events + [e])[..|events|] == events;
  }

  /** A label given up while dead never commits, under any later events at all. */
  lemma {:induction false} DeadForGood(n: Net, events: seq<NetEvent>, l: Label)
    requires RunNet(n, events).Some? && IsDead(StateOf(n, l))
    ensures IsDead(StateOf(RunNet(n, events).value, l))
  {
    if |events| == 0 {
    } else {
      var front := events[..|events| - 1];
      DeadForGood(n, front, l);
      FateIsFinal(RunNet(n, front).value, events[|events| - 1], l);
    }
  }

  lemma UnusedLabel(used: set<Label>) returns (l: Label)
    ensures l !in used
  {
    var rest := used;
    l := 0;
    while rest != {}
      invariant rest <= used
      invariant forall x :: x in used && x !in rest ==> x < l
      decreases rest
    {
      var x :| x in rest;
      rest := rest - {x};
      if x >= l {
        l := x + 1;
      }
    }
  }

  const LOADED := Answered(200, Document(LoadResponse(Success, OtherJob)))

  lemma LoadedIsAccepted(kind: ClientKind)
    ensures ReadSend(kind, LOADED) == Accepted
  {
    SuccessIsOnlyOnEvidence(LOADED);
  }

  /** From `n` to `r` nothing happens but the one commit of `l`. */
  ghost predicate OnlyCommits(n: Net, r: Net, l: Label) {
    && multiset(r.commits)[l] == 1
    && r.deliveries == n.deliveries && r.used == n.used && r.wire == n.wire
    && (forall x :: x != l ==> StateOf(r, x) == StateOf(n, x))
  }

  lemma RunningCommits(n: Net, l: Label)
    requires StateOf(n, l).Running? && multiset(n.commits)[l] == 0
    ensures OnlyCommits(n, NetStep(n, CommitTxn(l)), l)
  {
    assert multiset(n.commits + [l]) == multiset(n.commits) + multiset{l};
  }

  lemma TwoSteps(n: Net, e1: NetEvent, e2: NetEvent)
    requires NetEnabled(n, e1) && NetEnabled(NetStep(n, e1), e2)
    ensures RunNet(n, [e1, e2]) == Some(NetStep(NetStep(n, e1), e2))
  {
    hide NetStep, NetEnabled;
    RunOn(n, [], e1);
    RunOn(n, [] + [e1], e2);
    assert [] + [e1] + [e2] == [e1, e2];
  }

  lemma ArrivalRegisters(n: Net, l: Label)
    requires StateOf(n, l).Absent? && l in n.wire
    ensures NetEnabled(n, Arrive(l)) && NetEnabled(NetStep(n, Arrive(l)), CommitTxn(l))
    ensures var m := NetStep(n, Arrive(l));
            && StateOf(m, l).Running?
            && m.(server := n.server) == n
            && (forall x :: x != l ==> StateOf(m, x) == StateOf(n, x))
  {}

  lemma ArrivingCommits(n: Net, l: Label)
    requires StateOf(n, l).Absent? && l in n.wire && multiset(n.commits)[l] == 0
    ensures RunNet(n, [Arrive(l), CommitTxn(l)]).Some?
    ensures OnlyCommits(n, RunNet(n, [Arrive(l), CommitTxn(l)]).value, l)
  {
    ArrivalRegisters(n, l);
    hide NetStep, NetEnabled, StateOf, RunNet;
    TwoSteps(n, Arrive(l), CommitTxn(l));
    RunningCommits(NetStep(n, Arrive(l)), l);
  }

  /** The live label is committed behind the client's back. */
  lemma CommitOld(n: Net, l: Label) returns (events: seq<NetEvent>)
    requires ServerSound(n) && l in n.wire && !IsDead(StateOf(n, l))
    ensures RunNet(n, events).Some? && OnlyCommits(n, RunNet(n, events).value, l)
    ensures forall k :: 0 <= k < |events| ==> !events[k].Client?
  {
    assert multiset(n.commits)[l] == if StateOf(n, l).Committed? then 1 else 0;
    hide ServerSound;
    match StateOf(n, l) {
      case Absent =>
        ArrivingCommits(n, l);
        events := [Arrive(l), CommitTxn(l)];
        hide RunNet, OnlyCommits;
      case Running =>
        RunOn(n, [], CommitTxn(l));
        RunningCommits(n, l);
        events := [] + [CommitTxn(l)];
        hide OnlyCommits;
      case Committed =>
        events := [];
    }
  }

  /** The replacement label goes through as well. */
  lemma CommitNew(n: Net, i: nat, l: Label) returns (events: seq<NetEvent>)
    requires i < |n.deliveries| && n.deliveries[i].phase.Ready? && n.deliveries[i].current == l
    requires StateOf(n, l).Absent?
    ensures RunNet(n, events).Some?
    ensures forall k :: 0 <= k < |events| ==> events[k].Client? ==> !events[k].e.PollExpired?
    ensures var r := RunNet(n, events).value;
            && r.commits == n.commits + [l]
            && |r.deliveries| == |n.deliveries|
            && Labels(r.deliveries[i]) == Labels(n.deliveries[i]) && r.deliveries[i].phase == Done(true)
  {
    var e1, e2, e3, e4 := Client(i, SendRequest), Arrive(l), CommitTxn(l), Client(i, SendReplied(LOADED));
    RunOn(n, [], e1);
    var m1 := NetStep(n, e1);
    RunOn(n, [] + [e1], e2);
    var m2 := NetStep(m1, e2);
    RunOn(n, [] + [e1] + [e2], e3);
    var m3 := NetStep(m2, e3);
    LoadedIsAccepted(n.deliveries[i].kind);
    hide ReadSend, SaysLoaded;
    RunOn(n, [] + [e1] + [e2] + [e3], e4);
    events := [] + [e1] + [e2] + [e3] + [e4];
  }

  lemma {:induction false} RunSplit(n: Net, a: seq<NetEvent>, b: seq<NetEvent>)
    requires RunNet(n, a).Some?
    ensures RunNet(n, a + b) == RunNet(RunNet(n, a).value, b)
  {
    if |b| == 0 {
      assert a + b == a;
    } else {
      var front, e := b[..|b| - 1], b[|b| - 1];
      RunSplit(n, a, front);
      assert (a + b)[..|a + b| - 1] == a + front;
      assert (a + b)[|a + b| - 1] == e;
    }
  }

  ghost predicate CommitsTwice(n: Net, events: seq<NetEvent>, i: nat) {
    && RunNet(n, events).Some? && NeverGivesUpLive(n, events)
    && var r := RunNet(n, events).value;
       && i < |r.deliveries|
       && CommitCount(r.commits, Labels(r.deliveries[i])) >= 2
  }

  /** From an abandoned live label to two commits and a reported success. */
  lemma AbandonedLiveLabelCommitsTwice(n: Net, i: nat) returns (events: seq<NetEvent>)
    requires ServerSound(n) && i < |n.deliveries| && n.deliveries[i].phase.NeedLabel?
    requires n.deliveries[i].current in n.wire && !IsDead(StateOf(n, n.deliveries[i].current))
    ensures CommitsTwice(n, events, i)
    ensures RunNet(n, events).value.deliveries[i].phase == Done(true)
    ensures |RunNet(n, events).value.deliveries| == |n.deliveries|
  {
    var l := n.deliveries[i].current;
    var replacement := UnusedLabel(n.used);
    var behind := CommitOld(n, l);
    var m := RunNet(n, behind).value;
    RunOn(n, behind, Client(i, NewLabel(replacement)));
    var start := behind + [Client(i, NewLabel(replacement))];
    var m' := NetStep(m, Client(i, NewLabel(replacement)));
    assert l in n.used && replacement !in n.server;
    assert StateOf(n, replacement).Absent? && StateOf(m, replacement).Absent?;
    assert m'.server == m.server;
    var after := CommitNew(m', i, replacement);
    RunSplit(n, start, after);
    events := start + after;
    var r := RunNet(n, events).value;
    var labels := Labels(r.deliveries[i]);
    assert labels == n.deliveries[i].abandoned + [l] + [replacement];
    assert multiset(r.commits) == multiset(m.commits) + multiset{replacement};
    assert labels[..|labels| - 1] == n.deliveries[i].abandoned + [l];
    assert labels[..|labels| - 1][..|labels| - 2] == n.deliveries[i].abandoned;
  }

  /** Exactly when a poll window that closes on a failed dial endangers the promise: a
      second commit can follow if and only if the label given up was still alive. */
  lemma DialExpiryIsUnsafeIffLive(n: Net, i: nat)
    requires NetInv(n) && NetEnabled(n, Client(i, PollExpired)) && IsDialExpiry(n, Client(i, PollExpired))
    ensures (exists events :: CommitsTwice(NetStep(n, Client(i, PollExpired)), events, i)) <==>
            !IsDead(StateOf(n, n.deliveries[i].current))
  {
    var e := Client(i, PollExpired);
    var r := NetStep(n, e);
    if IsDead(StateOf(n, n.deliveries[i].current)) {
      StepKeepsNet(n, e);
      forall events | CommitsTwice(r, events, i)
        ensures false
      {
        RunKeepsNet(r, events);
        var m := RunNet(r, events).value;
        SoundMeansAtMostOnce(m, m.deliveries[i]);
      }
    } else {
      StepKeepsServer(n, e);
      var events := AbandonedLiveLabelCommitsTwice(r, i);
    }
  }

  // ---- what the client can know ------------------------------------------------------

  /** The poll replies delivery i has had about the label of its latest upload. */
  function PollsHeard(events: seq<NetEvent>, i: nat): seq<PollReply> {
    if |events| == 0 then []
    else
      var front, e := events[..|events| - 1], events[|events| - 1];
      if !e.Client? || e.i != i then PollsHeard(front, i)
      else match e.e
        case PollReplied(reply) => PollsHeard(front, i) + [reply]
        case PollExpired => PollsHeard(front, i)
        case GiveUp => PollsHeard(front, i)
        case _ => []
  }

  /** A run of deliveries beside Doris in which delivery i has had these poll replies. */
  ghost predicate Polled(events: seq<NetEvent>, i: nat, replies: seq<PollReply>) {
    && RunNet(IDLE_NET, events).Some?
    && i < |RunNet(IDLE_NET, events).value.deliveries|
    && PollsHeard(events, i) == replies
  }

  lemma OthersKeepLabel(n: Net, e: NetEvent, i: nat)
    requires NetEnabled(n, e) && i < |n.deliveries|
    requires e.Client? && e.i == i ==> e.e.PollReplied? || e.e.PollExpired? || e.e.GiveUp?
    ensures i < |NetStep(n, e).deliveries| && NetStep(n, e).deliveries[i].current == n.deliveries[i].current
  {}

  /** A reply that says gone was true when given, and stays true. */
  lemma {:induction false} GoneIsDead(events: seq<NetEvent>, i: nat)
    requires RunNet(IDLE_NET, events).Some? && |PollsHeard(events, i)| > 0
    ensures var n := RunNet(IDLE_NET, events).value;
            var heard := PollsHeard(events, i);
            && i < |n.deliveries|
            && (SaysGone(heard[|heard| - 1]) ==> IsDead(StateOf(n, n.deliveries[i].current)))
  {
    var front, e := events[..|events| - 1], events[|events| - 1];
    var m := RunNet(IDLE_NET, front).value;
    if e.Client? && e.i == i && e.e.PollReplied? {
      OthersKeepLabel(m, e, i);
    } else {
      GoneIsDead(front, i);
      OthersKeepLabel(m, e, i);
      FateIsFinal(m, e, m.deliveries[i].current);
      hide NetStep, NetEnabled, StateOf, SaysGone, IsDead;
    }
  }

  const LANDED := [Start(SDK, 0), Client(0, SendRequest), Arrive(0), CommitTxn(0),
                   Client(0, SendReplied(TransportFailed))]

  /** The upload lands and commits, and its answer is lost. */
  lemma LandedRun()
    ensures RunNet(IDLE_NET, LANDED) ==
            Some(Net(map[0 := Committed], {0}, [0], {0}, [Delivery(SDK, Polling, 0, [], None, 1)]))
    ensures PollsHeard(LANDED, 0) == []
  {
    var e1, e2, e3 := Start(SDK, 0), Client(0, SendRequest), Arrive(0);
    var e4, e5 := CommitTxn(0), Client(0, SendReplied(TransportFailed));
    RunOn(IDLE_NET, [], e1);
    RunOn(IDLE_NET, [] + [e1], e2);
    RunOn(IDLE_NET, [] + [e1] + [e2], e3);
    RunOn(IDLE_NET, [] + [e1] + [e2] + [e3], e4);
    RunOn(IDLE_NET, [] + [e1] + [e2] + [e3] + [e4], e5);
    assert LANDED == [] + [e1] + [e2] + [e3] + [e4] + [e5];
    var n := RunNet(IDLE_NET, LANDED).value;
    assert n.server == map[0 := Committed] && n.commits == [0] && n.wire == n.used == {0};
    assert n.deliveries == [Delivery(SDK, Polling, 0, [], None, 1)];
  }

  predicate NoExpiry(events: seq<NetEvent>) {
    forall k :: 0 <= k < |events| ==> !(events[k].Client? && events[k].e.PollExpired?)
  }

  /** Any conversation that does not end in gone fits a label that has committed. */
  lemma {:induction false} CommittedFits(replies: seq<PollReply>) returns (events: seq<NetEvent>)
    requires forall k :: 0 <= k < |replies| - 1 ==> !IsConclusive(replies[k])
    requires |replies| > 0 ==> !SaysGone(replies[|replies| - 1])
    ensures Polled(events, 0, replies) && NoExpiry(events)
    ensures var n := RunNet(IDLE_NET, events).value;
            && n.deliveries[0].current == 0 && StateOf(n, 0).Committed? && n.deliveries[0].kind.SDK?
            && ((|replies| > 0 && IsConclusive(replies[|replies| - 1])) || n.deliveries[0].phase.Polling?)
  {
    if |replies| == 0 {
      LandedRun();
      events := LANDED;
    } else {
      var front, reply := replies[..|replies| - 1], replies[|replies| - 1];
      var before := CommittedFits(front);
      var e := Client(0, PollReplied(reply));
      RunOn(IDLE_NET, before, e);
      events := before + [e];
      assert events[..|events| - 1] == before;
      hide RunNet;
    }
  }

  /** From what it has heard the client may give a label up if and only if the last poll
      reply was ABORTED or UNKNOWN: anything else, a failed dial included, also comes up in
      a run in which the label has committed. */
  lemma GivingUpIsSafeIff(replies: seq<PollReply>)
    requires |replies| > 0
    requires forall k :: 0 <= k < |replies| - 1 ==> !IsConclusive(replies[k])
    ensures (forall events, i: nat :: Polled(events, i, replies) ==>
               var n := RunNet(IDLE_NET, events).value; IsDead(StateOf(n, n.deliveries[i].current))) <==>
            replies[|replies| - 1] == PollState(ABORTED) || replies[|replies| - 1] == PollState(UNKNOWN)
  {
    if SaysGone(replies[|replies| - 1]) {
      forall events, i: nat | Polled(events, i, replies)
        ensures var n := RunNet(IDLE_NET, events).value; IsDead(StateOf(n, n.deliveries[i].current))
      {
        GoneIsDead(events, i);
      }
    } else {
      var events := CommittedFits(replies);
      hide RunNet, PollsHeard;
      var n := RunNet(IDLE_NET, events).value;
      assert Polled(events, 0, replies) && !IsDead(StateOf(n, n.deliveries[0].current));
    }
  }

  /** While a delivery polls it remembers the last reply it heard. */
  lemma {:induction false} RemembersLastReply(events: seq<NetEvent>, i: nat)
    requires RunNet(IDLE_NET, events).Some? && |PollsHeard(events, i)| > 0
    requires i < |RunNet(IDLE_NET, events).value.deliveries|
    requires RunNet(IDLE_NET, events).value.deliveries[i].phase.Polling?
    ensures var heard := PollsHeard(events, i);
            RunNet(IDLE_NET, events).value.deliveries[i].lastPoll == Some(heard[|heard| - 1])
  {
    var front, e := events[..|events| - 1], events[|events| - 1];
    var m := RunNet(IDLE_NET, front).value;
    if !(e.Client? && e.i == i) {
      GoneIsDead(front, i);
      StaysAsItWas(m, e, i);
      RemembersLastReply(front, i);
    } else {
      hide RunNet, PollsHeard, SendOutcome, DemoOutcome, Truthful;
    }
  }

  lemma StaysAsItWas(n: Net, e: NetEvent, i: nat)
    requires NetEnabled(n, e) && i < |n.deliveries| && !(e.Client? && e.i == i)
    ensures i < |NetStep(n, e).deliveries| && NetStep(n, e).deliveries[i] == n.deliveries[i]
  {}

  /** After these replies the poll window may close so that a second commit follows. */
  ghost predicate ExpiryCanCommitTwice(replies: seq<PollReply>) {
    exists events, i: nat, more ::
      && Polled(events, i, replies) && NeverGivesUpLive(IDLE_NET, events)
      && var n := RunNet(IDLE_NET, events).value;
         && NetEnabled(n, Client(i, PollExpired))
         && CommitsTwice(NetStep(n, Client(i, PollExpired)), more, i)
  }

  lemma NoExpiryGivesUpNothing(n: Net, events: seq<NetEvent>)
    requires NoExpiry(events)
    ensures NeverGivesUpLive(n, events)
  {
    hide RunNet;
  }

  lemma DialFailureCanCommitTwice(replies: seq<PollReply>)
    requires |replies| > 0 && replies[|replies| - 1] == PollDialFailed
    requires forall k :: 0 <= k < |replies| ==> !IsConclusive(replies[k])
    ensures ExpiryCanCommitTwice(replies)
  {
    var events := CommittedFits(replies);
    NoExpiryGivesUpNothing(IDLE_NET, events);
    assert NetInv(IDLE_NET);
    RunKeepsNet(IDLE_NET, events);
    RemembersLastReply(events, 0);
    var n := RunNet(IDLE_NET, events).value;
    assert NetEnabled(n, Client(0, PollExpired)) && IsDialExpiry(n, Client(0, PollExpired));
    hide RunNet, PollsHeard, NetStep, NetEnabled, NetInv, NeverGivesUpLive, CommitsTwice;
    DialExpiryIsUnsafeIffLive(n, 0);
    var more :| CommitsTwice(NetStep(n, Client(0, PollExpired)), more, 0);
  }

  lemma OtherExpiriesAreSafe(replies: seq<PollReply>, events: seq<NetEvent>, i: nat, more: seq<NetEvent>)
    requires |replies| > 0 && replies[|replies| - 1] != PollDialFailed
    requires Polled(events, i, replies) && NeverGivesUpLive(IDLE_NET, events)
    requires NetEnabled(RunNet(IDLE_NET, events).value, Client(i, PollExpired))
    ensures !CommitsTwice(NetStep(RunNet(IDLE_NET, events).value, Client(i, PollExpired)), more, i)
  {
    assert NetInv(IDLE_NET);
    RunKeepsNet(IDLE_NET, events);
    RemembersLastReply(events, i);
    var n, e := RunNet(IDLE_NET, events).value, Client(i, PollExpired);
    assert !IsDialExpiry(n, e);
    StepKeepsNet(n, e);
    var r := NetStep(n, e);
    if CommitsTwice(r, more, i) {
      RunKeepsNet(r, more);
      var m := RunNet(r, more).value;
      SoundMeansAtMostOnce(m, m.deliveries[i]);
    }
  }

  /** The condition in the client's own terms: when the window closes on an inconclusive
      conversation, a second commit can follow if and only if its last poll failed to dial. */
  lemma ExpiryIsUnsafeIffDialFailed(replies: seq<PollReply>)
    requires |replies| > 0
    requires forall k :: 0 <= k < |replies| ==> !IsConclusive(replies[k])
    ensures ExpiryCanCommitTwice(replies) <==> replies[|replies| - 1] == PollDialFailed
  {
    if replies[|replies| - 1] == PollDialFailed {
      DialFailureCanCommitTwice(replies);
    } else if ExpiryCanCommitTwice(replies) {
      var events, i: nat, more :|
        && Polled(events, i, replies) && NeverGivesUpLive(IDLE_NET, events)
        && var n := RunNet(IDLE_NET, events).value;
           && NetEnabled(n, Client(i, PollExpired))
           && CommitsTwice(NetStep(n, Client(i, PollExpired)), more, i);
      OtherExpiriesAreSafe(replies, events, i, more);
    }
  }

  /** The run itself: the upload lands but its answer is lost, the only poll fails to
      dial as the window closes, and the replacement label lands too. */
  lemma DoubleCommitRun() returns (events: seq<NetEvent>)
    ensures RunNet(IDLE_NET, events).Some?
    ensures var n := RunNet(IDLE_NET, events).value;
            && |n.deliveries| == 1 && n.deliveries[0].phase == Done(true)
            && CommitCount(n.commits, Labels(n.deliveries[0])) >= 2
  {
    LandedRun();
    var polled, expired := Client(0, PollReplied(PollDialFailed)), Client(0, PollExpired);
    RunOn(IDLE_NET, LANDED, polled);
    RunOn(IDLE_NET, LANDED + [polled], expired);
    var start := LANDED + [polled] + [expired];
    var n := RunNet(IDLE_NET, start).value;
    assert n.deliveries == [Delivery(SDK, NeedLabel, 0, [], Some(PollDialFailed), 1)];
    assert n.wire == {0} && n.commits == [0] && n.server == map[0 := Committed];
    hide RunNet, NetStep, NetEnabled;
    assert multiset(n.commits) == multiset{0};
    var more := AbandonedLiveLabelCommitsTwice(n, 0);
    RunSplit(IDLE_NET, start, more);
    events := start + more;
  }

  // ---- a fresh label at work ---------------------------------------------------------

  const LOST := [Start(SDK, 0), Client(0, SendRequest), Client(0, SendReplied(TransportFailed))]

  /** The upload's answer is lost and the label not yet known to Doris. */
  lemma LostRun()
    ensures RunNet(IDLE_NET, LOST) == Some(Net(map[], {0}, [], {0}, [Delivery(SDK, Polling, 0, [], None, 1)]))
  {
    var e1, e2, e3 := Start(SDK, 0), Client(0, SendRequest), Client(0, SendReplied(TransportFailed));
    RunOn(IDLE_NET, [], e1);
    RunOn(IDLE_NET, [] + [e1], e2);
    RunOn(IDLE_NET, [] + [e1] + [e2], e3);
    assert LOST == [] + [e1] + [e2] + [e3];
    var n := RunNet(IDLE_NET, LOST).value;
    assert n.deliveries == [Delivery(SDK, Polling, 0, [], None, 1)] && n.wire == n.used == {0};
  }

  /** Doris gives the label up: it aborts the load, or never registers it at all. */
  lemma GoneRun(aborted: bool) returns (events: seq<NetEvent>)
    ensures RunNet(IDLE_NET, events) ==
            Some(Net(map[0 := if aborted then Aborted else Never], {0}, [], {0},
                     [Delivery(SDK, Polling, 0, [], None, 1)]))
  {
    LostRun();
    if aborted {
      RunOn(IDLE_NET, LOST, Arrive(0));
      RunOn(IDLE_NET, LOST + [Arrive(0)], AbortTxn(0));
      events := LOST + [Arrive(0)] + [AbortTxn(0)];
      assert RunNet(IDLE_NET, events).value.server == map[0 := Aborted];
    } else {
      RunOn(IDLE_NET, LOST, Forget(0));
      events := LOST + [Forget(0)];
      assert RunNet(IDLE_NET, events).value.server == map[0 := Never];
    }
  }

  /** The fresh label at work: a label Doris has aborted or never registered is replaced, and
      the batch goes in once under the new one and is reported successful. Both cases come up. */
  lemma FreshLabelRun(aborted: bool) returns (events: seq<NetEvent>)
    ensures Client(0, PollReplied(PollState(if aborted then ABORTED else UNKNOWN))) in events
    ensures RunNet(IDLE_NET, events).Some?
    ensures var n := RunNet(IDLE_NET, events).value;
            && n.commits == [1] && |n.deliveries| == 1
            && n.deliveries[0].phase == Done(true) && Labels(n.deliveries[0]) == [0, 1]
  {
    var start := GoneRun(aborted);
    var reply := PollState(if aborted then ABORTED else UNKNOWN);
    var polled, renamed := Client(0, PollReplied(reply)), Client(0, NewLabel(1));
    RunOn(IDLE_NET, start, polled);
    var m := RunNet(IDLE_NET, start + [polled]).value;
    assert m.deliveries == [Delivery(SDK, NeedLabel, 0, [], None, 1)] && m.used == {0} && m.commits == [];
    assert StateOf(m, 1).Absent?;
    RunOn(IDLE_NET, start + [polled], renamed);
    start := start + [polled] + [renamed];
    var n := NetStep(m, renamed);
    assert n.deliveries == [Delivery(SDK, Ready, 1, [] + [0], None, 1)] && n.commits == [] && n.server == m.server;
    assert StateOf(n, 1).Absent?;
    assert polled in start;
    hide RunNet, NetStep, NetEnabled, StateOf;
    var more := CommitNew(n, 0, 1);
    RunSplit(IDLE_NET, start, more);
    events := start + more;
  }

  // ---- whose commit it is -------------------------------------------------------------

  predicate Owns(n: Net, i: nat, l: Label) {
    i < |n.deliveries| && l in Labels(n.deliveries[i])
  }

  ghost predicate LabelsApart(n: Net) {
    && (forall i: nat, l: Label :: Owns(n, i, l) ==> l in n.used)
    && (forall i: nat, j: nat, l: Label :: Owns(n, i, l) && Owns(n, j, l) ==> i == j)
  }

  /** No two batches ever share a label, so a commit belongs to one batch. */
  lemma StepKeepsApart(n: Net, e: NetEvent)
    requires LabelsApart(n) && NetEnabled(n, e)
    ensures LabelsApart(NetStep(n, e))
  {
    var r := NetStep(n, e);
    if e.Start? {
      assert forall l: Label :: Owns(r, |n.deliveries|, l) ==> l == e.l;
      assert forall i: nat, l: Label :: i != |n.deliveries| ==> Owns(r, i, l) == Owns(n, i, l);
    } else if e.Client? {
      assert forall i: nat, l: Label :: i != e.i ==> Owns(r, i, l) == Owns(n, i, l);
      forall l: Label | Owns(r, e.i, l)
        ensures Owns(n, e.i, l) || (e.e.NewLabel? && l == e.e.next)
      {
        if e.e.NewLabel? {
          assert Labels(r.deliveries[e.i]) == Labels(n.deliveries[e.i]) + [e.e.next];
        } else {
          assert Labels(r.deliveries[e.i]) == Labels(n.deliveries[e.i]);
        }
      }
    } else {
      assert forall i: nat, l: Label :: Owns(r, i, l) == Owns(n, i, l);
    }
  }

  lemma {:induction false} RunKeepsApart(events: seq<NetEvent>)
    requires RunNet(IDLE_NET, events).Some?
    ensures LabelsApart(RunNet(IDLE_NET, events).value)
  {
    if |events| == 0 {
      assert RunNet(IDLE_NET, events).value == IDLE_NET;
    } else {
      var front := events[..|events| - 1];
      RunKeepsApart(front);
      StepKeepsApart(RunNet(IDLE_NET, front).value, events[|events| - 1]);
      hide LabelsApart, NetStep, NetEnabled;
    }
  }

  /** In no run do two deliveries ever share a label, so a commit is one delivery's. */
  lemma NoSharedLabels(events: seq<NetEvent>, i: nat, j: nat, l: Label)
    requires RunNet(IDLE_NET, events).Some?
    requires Owns(RunNet(IDLE_NET, events).value, i, l) && Owns(RunNet(IDLE_NET, events).value, j, l)
    ensures i == j
  {
    RunKeepsApart(events);
    hide RunNet, Owns;
  }
}
