/** Every run of the client beside Doris can be brought to its end: whatever has happened, a
    continuation exists in which all workers stop. */
module Finish {
  import P = Pipeline
  import Q = QueueSteps
  import N = LabelProtocol
  import NS = LabelSafety
  import opened Seqs
  import opened Replies
  import opened DeliveryLoops
  import PipelineSafety
  import Linger
  import opened WorkerSafety
  import opened Settlement
  import opened Shutdown
  import opened EndToEnd

  // ---- runs in pieces --------------------------------------------------------------------

  lemma {:induction false} RunsJoin(s: System, a: seq<Event>, b: seq<Event>)
    requires Run(s, a).Some? && Run(Run(s, a).value, b).Some?
    ensures Run(s, a + b) == Run(Run(s, a).value, b)
    ensures NeverGivesUpLive(s, a) && NeverGivesUpLive(Run(s, a).value, b) ==> NeverGivesUpLive(s, a + b)
  {
    if |b| == 0 {
      assert a + b == a;
    } else {
      var front := b[..|b| - 1];
      assert (a + b)[..|a + b| - 1] == a + front && (a + b)[|a + b| - 1] == b[|b| - 1];
      RunsJoin(s, a, front);
      hide Step, Enabled, N.GivesUpLive;
    }
  }

  predicate GivesUpNothing(s: System, e: Event) {
    e.OfNet? ==> !N.GivesUpLive(s.n, e.m)
  }

  lemma OneEvent(s: System, e: Event)
    requires Enabled(s, e) && GivesUpNothing(s, e)
    ensures Run(s, [e]) == Some(Step(s, e)) && NeverGivesUpLive(s, [e])
  {
    assert [e][..0] == [];
    assert Run(s, []) == Some(s) && NeverGivesUpLive(s, []);
    hide Step, Enabled, N.GivesUpLive;
  }

  /** `events` is a run from `s` to `t` that gives up no live label. */
  ghost predicate Reaches(s: System, events: seq<Event>, t: System) {
    Run(s, events) == Some(t) && NeverGivesUpLive(s, events)
  }

  lemma ReachesOn(s: System, a: seq<Event>, m: System, b: seq<Event>, t: System)
    requires Reaches(s, a, m) && Reaches(m, b, t)
    ensures Reaches(s, a + b, t)
  {
    hide Run, NeverGivesUpLive;
    RunsJoin(s, a, b);
  }

  lemma StepsTo(s: System, e: Event, rest: seq<Event>, t: System)
    requires Enabled(s, e) && GivesUpNothing(s, e) && Reaches(Step(s, e), rest, t)
    ensures Reaches(s, [e] + rest, t)
  {
    OneEvent(s, e);
    hide Step, Enabled, GivesUpNothing, Run, NeverGivesUpLive;
    RunsJoin(s, [e], rest);
  }

  // ---- a delivery can always be concluded ------------------------------------------------

  /** Moves until the delivery is over, when the next answers are errors. */
  function MovesLeft(d: N.Delivery): nat {
    match d.phase
    case NeedLabel => 3
    case Ready => 2
    case Sending => 1
    case Polling => if d.lastPoll == Some(PollUnreadable) then 1 else 2
    case Done(_) => 0
  }

  /** A delivery that is over stays as it is. */
  ghost predicate DoneStay(n: N.Net, r: N.Net) {
    && |r.deliveries| == |n.deliveries|
    && (forall j :: 0 <= j < |n.deliveries| ==> r.deliveries[j].kind == n.deliveries[j].kind)
    && forall j :: 0 <= j < |n.deliveries| && n.deliveries[j].phase.Done? ==> r.deliveries[j] == n.deliveries[j]
  }

  /** Whatever state the label is in, Doris may give such an answer. */
  lemma NextMove(n: N.Net, k: nat) returns (e: N.ClientEvent)
    requires k < |n.deliveries| && !n.deliveries[k].phase.Done?
    ensures N.NetEnabled(n, N.Client(k, e)) && !N.GivesUpLive(n, N.Client(k, e))
    ensures var r := N.NetStep(n, N.Client(k, e));
            && k < |r.deliveries| && MovesLeft(r.deliveries[k]) < MovesLeft(n.deliveries[k])
            && DoneStay(n, r)
  {
    var d := n.deliveries[k];
    var unused := NS.UnusedLabel(n.used);
    e := match d.phase
      case NeedLabel => N.NewLabel(unused)
      case Ready => N.SendRequest
      case Sending => N.SendReplied(EncodeFailed)
      case _ => if d.lastPoll == Some(PollUnreadable) then N.PollExpired else N.PollReplied(PollUnreadable);
    hide N.StateOf;
  }

  lemma {:induction false} DeliveryCanEnd(s: System, k: nat) returns (events: seq<Event>, n: N.Net)
    requires k < |s.n.deliveries|
    ensures Reaches(s, events, s.(n := n))
    ensures DoneStay(s.n, n) && n.deliveries[k].phase.Done?
    decreases MovesLeft(s.n.deliveries[k])
  {
    if s.n.deliveries[k].phase.Done? {
      events, n := [], s.n;
      assert s.(n := n) == s;
    } else {
      var e := NextMove(s.n, k);
      var moved := s.(n := N.NetStep(s.n, N.Client(k, e)));
      assert Enabled(s, OfNet(N.Client(k, e))) && Step(s, OfNet(N.Client(k, e))) == moved;
      hide Enabled, Step, N.NetStep, N.NetEnabled, N.GivesUpLive, Reaches, MovesLeft;
      var rest;
      rest, n := DeliveryCanEnd(moved, k);
      assert moved.(n := n) == s.(n := n);
      StepsTo(s, OfNet(N.Client(k, e)), rest, s.(n := n));
      events := [OfNet(N.Client(k, e))] + rest;
    }
  }

  // ---- the client can always finish ---------------------------------------------------------

  ghost predicate Going(s: System) {
    RunInv(s.c) && LinkInv(s)
  }

  /** A moment from which the client can finish: closed, with workers and a channel. */
  ghost predicate CanEnd(s: System) {
    Going(s) && s.c.q.closed && s.c.cfg.dispatchSize > 0 && |s.c.w.pcs| > 0
  }

  lemma ClientStepKeeps(c: P.Client, e: P.Event)
    requires RunInv(c) && c.q.closed && IsOwn(e) && P.Enabled(c, e)
    ensures var r := P.Step(c, e);
            && RunInv(r) && r.q.closed && r.cfg == c.cfg && |r.w.pcs| == |c.w.pcs|
            && 0 <= Work(r) < Work(c)
  {
    StepKeepsRunInv(c, e);
    StepWorks(c, e);
    IsAClient(c);
    IsAClient(P.Step(c, e));
    hide RunInv, P.Step, P.Enabled, Work, IsOwn;
    PoolKeepsSize(c, e);
    WorkIsNat(P.Step(c, e));
  }

  lemma IsAClient(c: P.Client)
    requires RunInv(c)
    ensures PipelineSafety.BatcherInv(c) && ProgressInv(c.d, c.w) && OwnerInv(c.d, c.w)
  {
    hide PipelineSafety.BatcherInv, ProgressInv, OwnerInv, Linger.NotEarly, CallInv;
  }

  lemma OfClientKeeps(s: System, e: P.Event) returns (t: System)
    requires CanEnd(s) && IsOwn(e) && P.Enabled(s.c, e) && !e.Take? && !e.Conclude?
    ensures Reaches(s, [OfClient(e)], t) && CanEnd(t) && 0 <= Work(t.c) < Work(s.c)
  {
    t := Step(s, OfClient(e));
    OneEvent(s, OfClient(e));
    ClientStepKeeps(s.c, e);
    IsAClient(s.c);
    hide RunInv, P.Step, P.Enabled, Work, IsOwn, LinkInv, Run, NeverGivesUpLive;
    ClientKeepsLink(s, e);
  }

  lemma TakeKeeps(s: System, i: nat) returns (l: N.Label, t: System)
    requires CanEnd(s) && P.Enabled(s.c, P.Take(i))
    ensures Reaches(s, [TakeBatch(i, l)], t) && CanEnd(t) && 0 <= Work(t.c) < Work(s.c)
  {
    l := NS.UnusedLabel(s.n.used);
    t := Step(s, TakeBatch(i, l));
    OneEvent(s, TakeBatch(i, l));
    ClientStepKeeps(s.c, P.Take(i));
    IsAClient(s.c);
    hide RunInv, Work, Run, NeverGivesUpLive;
    TakeKeepsLink(s, i, l);
  }

  /** The error the worker passes on when its delivery has ended without success. */
  function ResultOf(d: N.Delivery): DeliveryResult {
    DeliveryResult(if d.phase == N.Done(true) then None else Some(TimedOut), d.attempts, 0, 0)
  }

  lemma DoneStayLinked(s: System, n: N.Net)
    requires LinkInv(s) && DoneStay(s.n, n)
    ensures LinkInv(s.(n := n))
  {}

  lemma ConcludeIsOpen(s: System, i: nat, result: DeliveryResult)
    requires i < |s.c.w.pcs| && s.c.w.pcs[i].Delivering? && s.c.w.pcs[i].k < |s.n.deliveries|
    requires Reports(result, s.n.deliveries[s.c.w.pcs[i].k])
    ensures var e := ConcludeBatch(i, result);
            && Enabled(s, e) && GivesUpNothing(s, e) && P.Enabled(s.c, P.Conclude(i, result))
            && Step(s, e) == s.(c := P.Step(s.c, P.Conclude(i, result)))
  {
    hide Reports, P.WorkerStep;
  }

  lemma ResultReports(d: N.Delivery)
    requires d.phase.Done?
    ensures Reports(ResultOf(d), d)
  {}

  /** With its delivery over, a worker concludes the batch. */
  lemma ConcludeKeeps(s: System, i: nat) returns (e: Event, t: System)
    requires CanEnd(s) && i < |s.c.w.pcs| && s.c.w.pcs[i].Delivering? && s.c.w.pcs[i].k < |s.n.deliveries|
    requires s.n.deliveries[s.c.w.pcs[i].k].phase.Done?
    ensures Reaches(s, [e], t) && CanEnd(t) && 0 <= Work(t.c) < Work(s.c)
  {
    var result := ResultOf(s.n.deliveries[s.c.w.pcs[i].k]);
    e := ConcludeBatch(i, result);
    ResultReports(s.n.deliveries[s.c.w.pcs[i].k]);
    hide RunInv, Work, LinkInv, Step, Enabled, P.Step, P.Enabled, GivesUpNothing, Run, NeverGivesUpLive, Reports,
         ResultOf;
    ConcludeIsOpen(s, i, result);
    t := Step(s, e);
    OneEvent(s, e);
    ClientStepKeeps(s.c, P.Conclude(i, result));
    ConcludeKeepsLink(s, i, result);
  }

  lemma DeliveryEnds(s: System, i: nat) returns (events: seq<Event>, t: System)
    requires CanEnd(s) && i < |s.c.w.pcs| && s.c.w.pcs[i].Delivering? && s.c.w.pcs[i].k < |s.n.deliveries|
    ensures Reaches(s, events, t) && CanEnd(t) && 0 <= Work(t.c) < Work(s.c)
  {
    var front, n := DeliveryCanEnd(s, s.c.w.pcs[i].k);
    var m := s.(n := n);
    DoneStayLinked(s, n);
    hide RunInv, LinkInv, Work, Reaches;
    var e;
    e, t := ConcludeKeeps(m, i);
    ReachesOn(s, front, m, [e], t);
    events := front + [e];
  }

  /** One step of the client's own, after whatever its delivery needs to allow it. */
  lemma GoesOn(s: System) returns (events: seq<Event>, t: System)
    requires CanEnd(s) && !AllWorkersStopped(s.c.w)
    ensures Reaches(s, events, t) && CanEnd(t) && 0 <= Work(t.c) < Work(s.c)
  {
    var e := NeverStuck(s.c);
    if e.Take? {
      var l;
      l, t := TakeKeeps(s, e.i);
      events := [TakeBatch(e.i, l)];
    } else if e.Conclude? {
      IsAClient(s.c);
      assert s.c.w.pcs[e.i].k < |s.n.deliveries|;
      events, t := DeliveryEnds(s, e.i);
    } else {
      t := OfClientKeeps(s, e);
      events := [OfClient(e)];
    }
  }

  lemma {:induction false} Finishes(s: System) returns (events: seq<Event>, t: System)
    requires CanEnd(s) && Work(s.c) >= 0
    ensures Reaches(s, events, t) && AllWorkersStopped(t.c.w)
    decreases Work(s.c)
  {
    if AllWorkersStopped(s.c.w) {
      events, t := [], s;
    } else {
      hide *;
      var first, m := GoesOn(s);
      var rest;
      rest, t := Finishes(m);
      ReachesOn(s, first, m, rest, t);
      events := first + rest;
    }
  }

  lemma StepKeepsGoing(s: System, e: Event)
    requires Going(s) && Enabled(s, e)
    ensures Going(Step(s, e))
  {
    assert ClientInv(s.c);
    hide ClientInv, LinkInv, RunInv, N.NetStep, N.NetEnabled, P.Step, P.Enabled;
    StepKeepsLink(s, e);
    match e {
      case OfClient(e) => StepKeepsRunInv(s.c, e);
      case OfNet(_) =>
      case TakeBatch(i, _) => StepKeepsRunInv(s.c, P.Take(i));
      case ConcludeBatch(i, result) => StepKeepsRunInv(s.c, P.Conclude(i, result));
    }
  }

  lemma StepKeepsShape(s: System, e: Event)
    requires Going(s) && Enabled(s, e)
    ensures Step(s, e).c.cfg == s.c.cfg && |Step(s, e).c.w.pcs| == |s.c.w.pcs|
  {
    IsAClient(s.c);
    hide Going, N.NetStep, N.NetEnabled, P.Step, P.Enabled, PipelineSafety.BatcherInv;
    match e {
      case OfClient(e) => PoolKeepsSize(s.c, e);
      case OfNet(_) =>
      case TakeBatch(i, _) => PoolKeepsSize(s.c, P.Take(i));
      case ConcludeBatch(i, result) => PoolKeepsSize(s.c, P.Conclude(i, result));
    }
  }

  lemma {:induction false} RunKeepsGoing(s: System, events: seq<Event>)
    requires Going(s) && Run(s, events).Some?
    ensures var r := Run(s, events).value; Going(r) && r.c.cfg == s.c.cfg && |r.c.w.pcs| == |s.c.w.pcs|
  {
    if |events| == 0 {
      assert Run(s, events).value == s;
    } else {
      var front, e := events[..|events| - 1], events[|events| - 1];
      RunKeepsGoing(s, front);
      StepKeepsGoing(Run(s, front).value, e);
      StepKeepsShape(Run(s, front).value, e);
      hide Going, Step, Enabled;
    }
  }

  /** Every run can be brought to its end, with no more labels given up: some continuation
      closes the client, ends in a state where all workers have stopped, and so, with what
      every run keeps, leaves each accepted submission settled once and loaded as reported. */
  lemma EveryRunCanFinish(cfg: P.Config, maxQueueSize: nat, producers: nat, workers: nat, events: seq<Event>)
    returns (more: seq<Event>)
    requires cfg.dispatchSize > 0 && workers > 0
    requires var s0 := NewSystem(cfg, maxQueueSize, producers, workers);
             Run(s0, events).Some? && NeverGivesUpLive(s0, events)
    ensures var s0 := NewSystem(cfg, maxQueueSize, producers, workers);
            && Run(s0, events + more).Some? && NeverGivesUpLive(s0, events + more)
            && var s := Run(s0, events + more).value;
               AllWorkersStopped(s.c.w) && AllSettled(s.c) && forall id: nat :: LoadedAsReported(s, id)
  {
    var s0 := NewSystem(cfg, maxQueueSize, producers, workers);
    StartsGoing(cfg, maxQueueSize, producers, workers);
    RunKeepsGoing(s0, events);
    var s := Run(s0, events).value;
    assert Reaches(s0, events, s);
    hide NewSystem, Going, Run, NeverGivesUpLive, Reaches, AllSettled, LoadedAsReported, AllWorkersStopped;
    var t;
    more, t := ClosesAndFinishes(s);
    ReachesOn(s0, events, s, more, t);
    IsARun(s0, events + more, t);
    ExactlyOnce(cfg, maxQueueSize, producers, workers, events + more);
  }

  lemma IsARun(s: System, events: seq<Event>, t: System)
    requires Reaches(s, events, t)
    ensures Run(s, events) == Some(t) && NeverGivesUpLive(s, events)
  {
    hide Run, NeverGivesUpLive;
  }

  lemma ClosesAndFinishes(s: System) returns (events: seq<Event>, t: System)
    requires Going(s) && s.c.cfg.dispatchSize > 0 && |s.c.w.pcs| > 0
    ensures Reaches(s, events, t) && AllWorkersStopped(t.c.w)
  {
    var close := OfClient(P.Queue(Q.CloseQueue));
    var closed := Step(s, close);
    OneEvent(s, close);
    StepKeepsGoing(s, close);
    StepKeepsShape(s, close);
    assert closed.c.q.closed;
    CostsSomething(closed);
    var rest;
    rest, t := Finishes(closed);
    hide Run, NeverGivesUpLive, Going, Step, Enabled;
    ReachesOn(s, [close], closed, rest, t);
    events := [close] + rest;
  }

  lemma CostsSomething(s: System)
    requires Going(s)
    ensures Work(s.c) >= 0
  {
    IsAClient(s.c);
    WorkIsNat(s.c);
    hide ProgressInv, Work;
  }

  lemma StartsGoing(cfg: P.Config, maxQueueSize: nat, producers: nat, workers: nat)
    ensures Going(NewSystem(cfg, maxQueueSize, producers, workers))
    ensures var s0 := NewSystem(cfg, maxQueueSize, producers, workers); s0.c.cfg == cfg && |s0.c.w.pcs| == workers
  {
    NewSystemInv(cfg, maxQueueSize, producers, workers);
    RunKeepsAll(cfg, maxQueueSize, producers, workers, []);
    assert P.Run(P.NewClient(cfg, maxQueueSize, producers, workers), []) ==
           Some(P.NewClient(cfg, maxQueueSize, producers, workers));
    hide RunInv;
  }
}
