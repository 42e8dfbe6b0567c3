/** The client and Doris together: from an accepted submission to the commits that carry it. */
module EndToEnd {
  import P = Pipeline
  import N = LabelProtocol
  import NS = LabelSafety
  import opened Seqs
  import opened Submissions
  import opened DeliveryLoops
  import opened PipelineSafety
  import opened Attachment
  import opened WorkerSafety
  import opened Settlement

  datatype System = System(c: P.Client, n: N.Net)

  /** A worker that takes batch k starts delivery k under an unused label, and concludes it
      with what the protocol ended in; all else interleaves freely. */
  datatype Event =
    | OfClient(e: P.Event)
    | OfNet(m: N.NetEvent)
    | TakeBatch(i: nat, l: N.Label)
    | ConcludeBatch(i: nat, result: DeliveryResult)

  predicate Reports(result: DeliveryResult, d: N.Delivery) {
    d.phase == N.Done(result.err.None?) && result.attempts == d.attempts
  }

  predicate Enabled(s: System, e: Event) {
    match e
    case OfClient(e) => !e.Take? && !e.Conclude? && P.Enabled(s.c, e)
    case OfNet(m) => !m.Start? && N.NetEnabled(s.n, m)
    case TakeBatch(i, l) => P.Enabled(s.c, P.Take(i)) && N.NetEnabled(s.n, N.Start(N.SDK, l))
    case ConcludeBatch(i, result) =>
      && P.Enabled(s.c, P.Conclude(i, result))
      && s.c.w.pcs[i].k < |s.n.deliveries|
      && Reports(result, s.n.deliveries[s.c.w.pcs[i].k])
  }

  function Step(s: System, e: Event): System
    requires Enabled(s, e)
  {
    match e
    case OfClient(e) => s.(c := P.Step(s.c, e))
    case OfNet(m) => s.(n := N.NetStep(s.n, m))
    case TakeBatch(i, l) => System(P.Step(s.c, P.Take(i)), N.NetStep(s.n, N.Start(N.SDK, l)))
    case ConcludeBatch(i, result) => s.(c := P.Step(s.c, P.Conclude(i, result)))
  }

  function Run(s: System, events: seq<Event>): Option<System> {
    if |events| == 0 then Some(s)
    else match Run(s, events[..|events| - 1])
      case None => None
      case Some(m) =>
        var e := events[|events| - 1];
        if Enabled(m, e) then Some(Step(m, e)) else None
  }

  /** No poll window of the run that closes on a failed dial gives up a live label. */
  predicate NeverGivesUpLive(s: System, events: seq<Event>) {
    |events| == 0
    || (NeverGivesUpLive(s, events[..|events| - 1])
        && match Run(s, events[..|events| - 1])
           case None => false
           case Some(m) =>
             var e := events[|events| - 1];
             e.OfNet? ==> !N.GivesUpLive(m.n, e.m))
  }

  ghost predicate LinkInv(s: System) {
    && |s.n.deliveries| == |s.c.w.owner|
    && (forall k :: 0 <= k < |s.n.deliveries| ==> s.n.deliveries[k].kind.SDK?)
    && (forall k: nat :: k in s.c.w.completions ==>
          k < |s.n.deliveries| && Reports(s.c.w.completions[k], s.n.deliveries[k]))
  }

  ghost predicate SystemInv(s: System) {
    ClientInv(s.c) && N.NetInv(s.n) && LinkInv(s)
  }

  /** A concluded delivery makes no further move. */
  lemma NetKeepsLink(s: System, m: N.NetEvent)
    requires LinkInv(s) && !m.Start? && N.NetEnabled(s.n, m)
    ensures LinkInv(s.(n := N.NetStep(s.n, m)))
  {
    assert m.Client? ==> !s.n.deliveries[m.i].phase.Done?;
    hide N.ClientStep, N.Truthful;
  }

  lemma ClientKeepsLink(s: System, e: P.Event)
    requires LinkInv(s) && BatcherInv(s.c) && !e.Take? && !e.Conclude? && P.Enabled(s.c, e)
    ensures LinkInv(s.(c := P.Step(s.c, e)))
  {
    if e.Batch? {
      BatchTouchesQueue(s.c);
    }
    hide P.BatchStep, P.Q.Step, P.Q.Enabled, Reports;
  }

  lemma TakeKeepsLink(s: System, i: nat, l: N.Label)
    requires LinkInv(s) && CompletionInv(s.c.d, s.c.w) && Enabled(s, TakeBatch(i, l))
    ensures LinkInv(Step(s, TakeBatch(i, l)))
  {}

  lemma ConcludeKeepsLink(s: System, i: nat, result: DeliveryResult)
    requires LinkInv(s) && Enabled(s, ConcludeBatch(i, result))
    ensures LinkInv(Step(s, ConcludeBatch(i, result)))
  {
    hide AnyCallback, Reports;
  }

  lemma StepKeepsLink(s: System, e: Event)
    requires ClientInv(s.c) && LinkInv(s) && Enabled(s, e)
    ensures LinkInv(Step(s, e))
  {
    match e {
      case OfClient(e) => ClientKeepsLink(s, e);
      case OfNet(m) => NetKeepsLink(s, m);
      case TakeBatch(i, l) => TakeKeepsLink(s, i, l);
      case ConcludeBatch(i, result) => ConcludeKeepsLink(s, i, result);
    }
    hide ClientInv, LinkInv, P.Step, P.Enabled, N.NetStep, N.NetEnabled;
  }

  lemma StepKeepsSystem(s: System, e: Event)
    requires SystemInv(s) && Enabled(s, e)
    requires e.OfNet? ==> !N.GivesUpLive(s.n, e.m)
    ensures SystemInv(Step(s, e))
  {
    StepKeepsLink(s, e);
    match e {
      case OfClient(e) => StepKeepsClient(s.c, e);
      case OfNet(m) => NS.StepKeepsNet(s.n, m);
      case TakeBatch(i, l) =>
        StepKeepsClient(s.c, P.Take(i));
        NS.StepKeepsNet(s.n, N.Start(N.SDK, l));
      case ConcludeBatch(i, result) => StepKeepsClient(s.c, P.Conclude(i, result));
    }
    hide ClientInv, N.NetInv, LinkInv, P.Step, P.Enabled, N.NetStep, N.NetEnabled;
  }

  function NewSystem(cfg: P.Config, maxQueueSize: nat, producers: nat, workers: nat): System {
    System(P.NewClient(cfg, maxQueueSize, producers, workers), N.IDLE_NET)
  }

  lemma {:induction false} RunKeepsSystem(s: System, events: seq<Event>)
    requires SystemInv(s) && Run(s, events).Some? && NeverGivesUpLive(s, events)
    ensures SystemInv(Run(s, events).value)
  {
    if |events| == 0 {
    } else {
      var front, e := events[..|events| - 1], events[|events| - 1];
      RunKeepsSystem(s, front);
      StepKeepsSystem(Run(s, front).value, e);
      hide SystemInv, Step, Enabled, N.GivesUpLive;
    }
  }

  // ---- submissions and commits -----------------------------------------------------------

  /** A commit under `l` loads the submission: it is in the batch delivered under `l`. */
  ghost predicate Carries(s: System, l: N.Label, id: nat) {
    exists k: nat, j: nat :: CarriesAt(s, l, id, k, j)
  }

  predicate CarriesAt(s: System, l: N.Label, id: nat, k: nat, j: nat) {
    && k < |s.n.deliveries| && l in N.Labels(s.n.deliveries[k])
    && k < |s.c.d.sealed| && j < |s.c.d.sealed[k]| && s.c.d.sealed[k][j].id == id
  }

  /** How many of Doris's commits loaded the submission. */
  ghost function TimesLoaded(s: System, commits: seq<N.Label>, id: nat): nat {
    if |commits| == 0 then 0
    else TimesLoaded(s, commits[..|commits| - 1], id) + if Carries(s, commits[|commits| - 1], id) then 1 else 0
  }

  lemma {:induction false} LoadedAsOften(s: System, commits: seq<N.Label>, id: nat, current: N.Label)
    requires forall i :: 0 <= i < |commits| && Carries(s, commits[i], id) ==> commits[i] == current
    ensures TimesLoaded(s, commits, id) <= multiset(commits)[current]
    ensures Carries(s, current, id) ==> TimesLoaded(s, commits, id) == multiset(commits)[current]
  {
    hide Carries;
    if |commits| == 0 {
    } else {
      var front, last := commits[..|commits| - 1], commits[|commits| - 1];
      LoadedAsOften(s, front, id, current);
      assert commits == front + [last];
      assert multiset(commits) == multiset(front) + multiset{last};
    }
  }

  /** The only label that can have loaded a submission is its batch's present one. */
  lemma OnlyTheCurrentLabel(s: System, l: N.Label, id: nat)
    requires SystemInv(s) && N.StateOf(s.n, l).Committed? && Carries(s, l, id)
    ensures id in s.c.b.handles
    ensures s.c.b.handles[id] < |s.n.deliveries| && l == s.n.deliveries[s.c.b.handles[id]].current
  {
    var k: nat, j: nat :| CarriesAt(s, l, id, k, j);
    assert AttachedTo(s.c.d.sealed + [s.c.b.open], s.c.b.handles);
    assert N.DeliverySound(s.n, s.n.deliveries[k]);
    hide SystemInv, Carries, N.StateOf, N.DeliverySound, AttachedTo;
    DispatchedIsAttached(s.c, k, j);
    NS.CommittedIsCurrent(s.n, s.n.deliveries[k], l);
  }

  lemma DispatchedIsAttached(c: P.Client, k: nat, j: nat)
    requires AttachedTo(c.d.sealed + [c.b.open], c.b.handles)
    requires k < |c.d.sealed| && j < |c.d.sealed[k]|
    ensures var id := c.d.sealed[k][j].id; id in c.b.handles && c.b.handles[id] == k
  {
    var all := c.d.sealed + [c.b.open];
    assert all[k][j] == c.d.sealed[k][j];
  }

  lemma CommitIsCommitted(n: N.Net, i: nat)
    requires N.ServerSound(n) && i < |n.commits|
    ensures N.StateOf(n, n.commits[i]).Committed?
  {
    assert n.commits[i] in multiset(n.commits);
  }

  /** The label a submission's batch is delivered under at present, if it has got that far. */
  function PresentLabel(s: System, id: nat): N.Label {
    if id in s.c.b.handles && s.c.b.handles[id] < |s.n.deliveries| then s.n.deliveries[s.c.b.handles[id]].current else 0
  }

  lemma OnlyPresentLabelLoads(s: System, id: nat)
    requires SystemInv(s)
    ensures forall i :: 0 <= i < |s.n.commits| && Carries(s, s.n.commits[i], id) ==>
              id in s.c.b.handles && s.n.commits[i] == PresentLabel(s, id)
  {
    assert N.ServerSound(s.n);
    forall i | 0 <= i < |s.n.commits| && Carries(s, s.n.commits[i], id)
      ensures id in s.c.b.handles && s.n.commits[i] == PresentLabel(s, id)
    {
      CommitIsCommitted(s.n, i);
      OnlyTheCurrentLabel(s, s.n.commits[i], id);
      hide SystemInv, Carries, N.ServerSound, N.StateOf;
    }
  }

  /** At any moment of any run, no submission has been loaded twice. */
  lemma NeverLoadedTwice(s: System, id: nat)
    requires SystemInv(s)
    ensures TimesLoaded(s, s.n.commits, id) <= 1
    ensures Carries(s, PresentLabel(s, id), id) && N.StateOf(s.n, PresentLabel(s, id)).Committed? ==>
              TimesLoaded(s, s.n.commits, id) == 1
  {
    OnlyPresentLabelLoads(s, id);
    assert N.ServerSound(s.n);
    hide SystemInv, Carries, TimesLoaded, PresentLabel, N.StateOf;
    LoadedAsOften(s, s.n.commits, id, PresentLabel(s, id));
  }

  /** A submission whose handle has a successful result has been loaded exactly once, from
      the moment the result is there. */
  lemma SuccessMeansLoaded(s: System, id: nat)
    requires SystemInv(s)
    requires HandleResult(s.c, id).Some? && HandleResult(s.c, id).value.err.None?
    ensures TimesLoaded(s, s.n.commits, id) == 1
  {
    var k, j := HandleMeansPlaced(s.c, id);
    assert CompletionInv(s.c.d, s.c.w);
    assert Reports(s.c.w.completions[k], s.n.deliveries[k]);
    assert N.DeliverySound(s.n, s.n.deliveries[k]);
    var l := s.n.deliveries[k].current;
    var labels := N.Labels(s.n.deliveries[k]);
    assert labels[|labels| - 1] == l;
    assert OwnerInv(s.c.d, s.c.w);
    assert CarriesAt(s, l, id, k, j);
    assert PresentLabel(s, id) == l;
    hide SystemInv, TimesLoaded, HandleResult, PresentLabel, CarriesAt;
    NeverLoadedTwice(s, id);
  }

  ghost predicate LoadedAsReported(s: System, id: nat) {
    && TimesLoaded(s, s.n.commits, id) <= 1
    && (HandleResult(s.c, id).Some? && HandleResult(s.c, id).value.err.None? ==> TimesLoaded(s, s.n.commits, id) == 1)
  }

  lemma EachIsLoadedAsReported(s: System, id: nat)
    requires SystemInv(s)
    ensures LoadedAsReported(s, id)
  {
    NeverLoadedTwice(s, id);
    hide SystemInv, TimesLoaded, Carries, PresentLabel;
    if HandleResult(s.c, id).Some? && HandleResult(s.c, id).value.err.None? {
      SuccessMeansLoaded(s, id);
    }
  }

  /** End to end. In every run in which no poll window that closes on a failed dial gives up
      a live label, Doris never loads a submission twice, and has loaded it exactly once
      whenever its handle has a successful result; and once the client has shut down, every
      accepted submission has settled in one place. */
  lemma ExactlyOnce(cfg: P.Config, maxQueueSize: nat, producers: nat, workers: nat, events: seq<Event>)
    requires var s0 := NewSystem(cfg, maxQueueSize, producers, workers);
             Run(s0, events).Some? && NeverGivesUpLive(s0, events)
    ensures var s := Run(NewSystem(cfg, maxQueueSize, producers, workers), events).value;
            && (forall id: nat :: LoadedAsReported(s, id))
            && (AllWorkersStopped(s.c.w) ==> AllSettled(s.c))
  {
    var s0 := NewSystem(cfg, maxQueueSize, producers, workers);
    NewSystemInv(cfg, maxQueueSize, producers, workers);
    hide *;
    RunKeepsSystem(s0, events);
    var s := Run(s0, events).value;
    forall id: nat
      ensures LoadedAsReported(s, id)
    {
      EachIsLoadedAsReported(s, id);
    }
    if AllWorkersStopped(s.c.w) {
      SystemSettles(s);
    }
  }

  lemma NewSystemInv(cfg: P.Config, maxQueueSize: nat, producers: nat, workers: nat)
    ensures SystemInv(NewSystem(cfg, maxQueueSize, producers, workers))
  {
    InitClient(cfg, maxQueueSize, producers, workers);
    hide ClientInv;
  }

  lemma SystemSettles(s: System)
    requires SystemInv(s) && AllWorkersStopped(s.c.w)
    ensures AllSettled(s.c)
  {
    StoppedMeansSettled(s.c);
    hide ClientInv, AllSettled, AllWorkersStopped;
  }
}
