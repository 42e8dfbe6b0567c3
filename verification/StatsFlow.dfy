/** Conservation across the counters while any number of workers deliver at once, one
    step per atomic add, so that it also says what a snapshot in between may see. */
module StatsFlow {
  import opened Seqs

  /** Where a worker stands between two adds. The phase names the add that comes next. */
  datatype Phase =
    | Resting
    | Picked
    | AddAttempt | AddBytes | AddRecords
    | Trying
    | AddJob | AddError | AddRetries

  datatype Worker = Worker(phase: Phase, attempts: nat, bytes: nat, records: nat, failed: bool)

  datatype Attempt = Attempt(bytes: nat, records: nat)

  /** `made`: every attempt begun so far with its batch's size and record count. */
  datatype Counters = Counters(
    uploadAttempts: int,
    bytesSent: int,
    recordsSent: int,
    loadJobs: int,
    errorJobs: int,
    retries: int,
    workers: seq<Worker>,
    made: seq<Attempt>)

  datatype Event =
    | Pick(w: nat, bytes: nat, records: nat)
    | Begin(w: nat)
    | Conclude(w: nat, failed: bool)
    | Add(w: nat)

  function NewCounters(workers: nat): Counters {
    Counters(0, 0, 0, 0, 0, 0, seq(workers, _ => Worker(Resting, 0, 0, 0, false)), [])
  }

  predicate Adding(phase: Phase) {
    phase.AddAttempt? || phase.AddBytes? || phase.AddRecords? || phase.AddJob? || phase.AddError? || phase.AddRetries?
  }

  predicate Enabled(c: Counters, e: Event) {
    e.w < |c.workers| &&
    var phase := c.workers[e.w].phase;
    match e
    case Pick(_, _, _) => phase.Resting?
    case Begin(_) => phase.Picked? || phase.Trying?
    case Conclude(_, _) => phase.Trying?
    case Add(_) => Adding(phase)
  }

  /** The worker after its step. */
  function Next(w: Worker, e: Event): Worker {
    match e
    case Pick(_, bytes, records) => Worker(Picked, 0, bytes, records, false)
    case Begin(_) => w.(phase := AddAttempt, attempts := w.attempts + 1)
    case Conclude(_, failed) => w.(phase := AddJob, failed := failed)
    case Add(_) =>
      match w.phase
      case AddAttempt => w.(phase := AddBytes)
      case AddBytes => w.(phase := AddRecords)
      case AddRecords => w.(phase := Trying)
      case AddJob => w.(phase := AddError)
      case AddError => w.(phase := AddRetries)
      case _ => w.(phase := Resting)
  }

  function Step(c: Counters, e: Event): Counters
    requires Enabled(c, e)
  {
    var w := c.workers[e.w];
    var moved := c.(workers := c.workers[e.w := Next(w, e)]);
    match e
    case Begin(_) => moved.(made := c.made + [Attempt(w.bytes, w.records)])
    case Add(_) =>
      (match w.phase
       case AddAttempt => moved.(uploadAttempts := c.uploadAttempts + 1)
       case AddBytes => moved.(bytesSent := c.bytesSent + w.bytes)
       case AddRecords => moved.(recordsSent := c.recordsSent + w.records)
       case AddJob => moved.(loadJobs := c.loadJobs + 1)
       case AddError => moved.(errorJobs := c.errorJobs + if w.failed then 1 else 0)
       case _ => moved.(retries := c.retries + if w.attempts > 1 then w.attempts - 1 else 0))
    case _ => moved
  }

  function Run(c: Counters, events: seq<Event>): Option<Counters> {
    if |events| == 0 then Some(c)
    else match Run(c, events[..|events| - 1])
      case None => None
      case Some(m) =>
        var e := events[|events| - 1];
        if Enabled(m, e) then Some(Step(m, e)) else None
  }

  // ---- what each worker still owes or has advanced -------------------------------

  /** Attempts counted for a delivery whose job and retries are not. */
  function OpenAttempts(w: Worker): int {
    match w.phase
    case Resting => 0
    case Picked => 0
    case AddAttempt => w.attempts - 1
    case AddError => w.attempts - 1
    case AddRetries => w.attempts - 1
    case _ => w.attempts
  }

  function UncountedBytes(w: Worker): int {
    if w.phase.AddAttempt? || w.phase.AddBytes? then w.bytes else 0
  }

  function UncountedRecords(w: Worker): int {
    if w.phase.AddAttempt? || w.phase.AddBytes? || w.phase.AddRecords? then w.records else 0
  }

  function UncountedError(w: Worker): int {
    if w.phase.AddError? && w.failed then 1 else 0
  }

  function BytesOf(a: Attempt): int {
    a.bytes
  }

  function RecordsOf(a: Attempt): int {
    a.records
  }

  ghost predicate WorkerSound(w: Worker) {
    if w.phase.Picked? then w.attempts == 0 else w.phase.Resting? || w.attempts >= 1
  }

  ghost predicate Inv(c: Counters) {
    && c.uploadAttempts == c.loadJobs + c.retries + SumBy(OpenAttempts, c.workers)
    && c.errorJobs + SumBy(UncountedError, c.workers) <= c.loadJobs
    && c.bytesSent + SumBy(UncountedBytes, c.workers) == SumBy(BytesOf, c.made)
    && c.recordsSent + SumBy(UncountedRecords, c.workers) == SumBy(RecordsOf, c.made)
    && (forall i :: 0 <= i < |c.workers| ==> WorkerSound(c.workers[i]))
  }

  lemma InitInv(workers: nat)
    ensures Inv(NewCounters(workers))
  {
    var c := NewCounters(workers);
    SumZero(OpenAttempts, c.workers);
    SumZero(UncountedError, c.workers);
    SumZero(UncountedBytes, c.workers);
    SumZero(UncountedRecords, c.workers);
  }

  /** What a step adds to attempts beyond jobs and retries is what its worker has open. */
  lemma OpenAttemptsMove(c: Counters, e: Event)
    requires Enabled(c, e) && WorkerSound(c.workers[e.w])
    ensures var d := Step(c, e);
            (d.uploadAttempts - d.loadJobs - d.retries) - (c.uploadAttempts - c.loadJobs - c.retries) ==
            OpenAttempts(Next(c.workers[e.w], e)) - OpenAttempts(c.workers[e.w])
    ensures Step(c, e).workers == c.workers[e.w := Next(c.workers[e.w], e)]
  {}

  lemma StepKeepsAttempts(c: Counters, e: Event)
    requires Inv(c) && Enabled(c, e)
    ensures var d := Step(c, e); d.uploadAttempts == d.loadJobs + d.retries + SumBy(OpenAttempts, d.workers)
  {
    assert WorkerSound(c.workers[e.w]);
    OpenAttemptsMove(c, e);
    SumUpdate(OpenAttempts, c.workers, e.w, Next(c.workers[e.w], e));
    hide SumBy, Step, Enabled, Next, WorkerSound;
  }

  lemma StepKeepsErrors(c: Counters, e: Event)
    requires Inv(c) && Enabled(c, e)
    ensures var d := Step(c, e); d.errorJobs + SumBy(UncountedError, d.workers) <= d.loadJobs
  {
    SumUpdate(UncountedError, c.workers, e.w, Next(c.workers[e.w], e));
    hide SumBy;
  }

  /** What a step adds to the byte and record totals is what its worker no longer owes, or
      what the attempt it begins will. */
  lemma UncountedMove(c: Counters, e: Event)
    requires Enabled(c, e)
    ensures var w, d := c.workers[e.w], Step(c, e);
            && d.workers == c.workers[e.w := Next(w, e)]
            && d.made == c.made + (if e.Begin? then [Attempt(w.bytes, w.records)] else [])
            && d.bytesSent + UncountedBytes(Next(w, e)) ==
               c.bytesSent + UncountedBytes(w) + (if e.Begin? then w.bytes else 0)
            && d.recordsSent + UncountedRecords(Next(w, e)) ==
               c.recordsSent + UncountedRecords(w) + (if e.Begin? then w.records else 0)
  {}

  lemma MadeGrows(f: Attempt -> int, made: seq<Attempt>, more: seq<Attempt>)
    requires |more| <= 1
    ensures SumBy(f, made + more) == SumBy(f, made) + if |more| == 1 then f(more[0]) else 0
  {
    if |more| == 1 {
      assert more == [more[0]];
      SumAppend(f, made, more[0]);
    } else {
      assert made + more == made;
    }
  }

  lemma StepKeepsBytes(c: Counters, e: Event)
    requires c.bytesSent + SumBy(UncountedBytes, c.workers) == SumBy(BytesOf, c.made) && Enabled(c, e)
    ensures var d := Step(c, e); d.bytesSent + SumBy(UncountedBytes, d.workers) == SumBy(BytesOf, d.made)
  {
    var w := c.workers[e.w];
    UncountedMove(c, e);
    SumUpdate(UncountedBytes, c.workers, e.w, Next(w, e));
    MadeGrows(BytesOf, c.made, if e.Begin? then [Attempt(w.bytes, w.records)] else []);
    hide SumBy, Step, Enabled, Next, UncountedBytes, UncountedRecords;
  }

  lemma StepKeepsRecords(c: Counters, e: Event)
    requires c.recordsSent + SumBy(UncountedRecords, c.workers) == SumBy(RecordsOf, c.made) && Enabled(c, e)
    ensures var d := Step(c, e); d.recordsSent + SumBy(UncountedRecords, d.workers) == SumBy(RecordsOf, d.made)
  {
    var w := c.workers[e.w];
    UncountedMove(c, e);
    SumUpdate(UncountedRecords, c.workers, e.w, Next(w, e));
    MadeGrows(RecordsOf, c.made, if e.Begin? then [Attempt(w.bytes, w.records)] else []);
    hide SumBy, Step, Enabled, Next, UncountedBytes, UncountedRecords;
  }

  lemma StepKeepsWorkers(c: Counters, e: Event)
    requires Inv(c) && Enabled(c, e)
    ensures forall i :: 0 <= i < |c.workers| ==> WorkerSound(Step(c, e).workers[i])
  {
    assert WorkerSound(c.workers[e.w]);
    hide SumBy;
  }

  lemma StepKeepsInv(c: Counters, e: Event)
    requires Inv(c) && Enabled(c, e)
    ensures Inv(Step(c, e))
  {
    StepKeepsAttempts(c, e);
    StepKeepsErrors(c, e);
    StepKeepsBytes(c, e);
    StepKeepsRecords(c, e);
    StepKeepsWorkers(c, e);
    assert |Step(c, e).workers| == |c.workers|;
    hide Step, SumBy, WorkerSound;
  }

  lemma {:induction false} RunKeepsInv(c: Counters, events: seq<Event>)
    requires Inv(c) && Run(c, events).Some?
    ensures Inv(Run(c, events).value)
  {
    if |events| == 0 {
    } else {
      RunKeepsInv(c, events[..|events| - 1]);
      StepKeepsInv(Run(c, events[..|events| - 1]).value, events[|events| - 1]);
    }
  }

  // ---- what a snapshot in between may see ------------------------------------------

  /** Errors counted during a run from `c`. */
  function ErrorsCounted(c: Counters, events: seq<Event>): nat
    requires Run(c, events).Some?
  {
    if |events| == 0 then 0
    else
      var front, e := events[..|events| - 1], events[|events| - 1];
      var w := Run(c, front).value.workers[e.w];
      ErrorsCounted(c, front) + if e.Add? && w.phase.AddError? && w.failed then 1 else 0
  }

  lemma {:induction false} ErrorsAddUp(c: Counters, events: seq<Event>)
    requires Run(c, events).Some?
    ensures Run(c, events).value.errorJobs == c.errorJobs + ErrorsCounted(c, events)
  {
    if |events| == 0 {
      assert Run(c, events).value == c;
    } else {
      ErrorsAddUp(c, events[..|events| - 1]);
    }
  }

  /** A snapshot loads the job count in one state and the error count in a later one. It shows
      more errors than jobs exactly when more errors are counted between the two loads than
      there were jobs without one at the first. */
  lemma SnapshotTearsIff(workers: nat, before: seq<Event>, between: seq<Event>)
    requires Run(NewCounters(workers), before).Some? && Run(Run(NewCounters(workers), before).value, between).Some?
    ensures var c := Run(NewCounters(workers), before).value;
            var d := Run(c, between).value;
            && c.errorJobs <= c.loadJobs
            && (d.errorJobs > c.loadJobs <==> ErrorsCounted(c, between) > c.loadJobs - c.errorJobs)
  {
    var c := Run(NewCounters(workers), before).value;
    InitInv(workers);
    RunKeepsInv(NewCounters(workers), before);
    SumAtLeast(UncountedError, c.workers);
    ErrorsAddUp(c, between);
  }

  /** One more event, taking a run from `a` to `b`. */
  lemma Reaches(c: Counters, events: seq<Event>, a: Counters, e: Event, b: Counters)
    requires Run(c, events) == Some(a) && Enabled(a, e) && Step(a, e) == b
    ensures Run(c, events + [e]) == Some(b)
  {
    hide Step, Enabled;
    RunOn(c, events, e);
  }

  const FAILING := Worker(AddJob, 1, 1, 1, true)

  /** One worker alone, with these totals. */
  function Alone(attempts: int, bytes: int, records: int, w: Worker): Counters {
    Counters(attempts, bytes, records, 0, 0, 0, [w], [Attempt(1, 1)])
  }

  const TRYING := Worker(Trying, 1, 1, 1, false)

  /** A first attempt, begun and counted. */
  lemma FirstAttempt() returns (events: seq<Event>)
    ensures Run(NewCounters(1), events) == Some(Alone(1, 1, 1, TRYING))
  {
    var c := NewCounters(1);
    var s1 := Counters(0, 0, 0, 0, 0, 0, [Worker(Picked, 0, 1, 1, false)], []);
    var s2 := Alone(0, 0, 0, Worker(AddAttempt, 1, 1, 1, false));
    assert Run(c, []) == Some(c);
    assert Step(c, Pick(0, 1, 1)) == s1 && Step(s1, Begin(0)) == s2;
    hide Run, Step, NewCounters;
    Reaches(c, [], c, Pick(0, 1, 1), s1);
    events := [] + [Pick(0, 1, 1)];
    Reaches(c, events, s1, Begin(0), s2);
    events := events + [Begin(0)];
    events := ThreeMore(c, events);
  }

  lemma ThreeMore(c: Counters, events: seq<Event>) returns (more: seq<Event>)
    requires Run(c, events) == Some(Alone(0, 0, 0, Worker(AddAttempt, 1, 1, 1, false)))
    ensures Run(c, more) == Some(Alone(1, 1, 1, TRYING))
  {
    var s2, s3 := Alone(0, 0, 0, Worker(AddAttempt, 1, 1, 1, false)), Alone(1, 0, 0, Worker(AddBytes, 1, 1, 1, false));
    var s4 := Alone(1, 1, 0, Worker(AddRecords, 1, 1, 1, false));
    assert Step(s2, Add(0)) == s3 && Step(s3, Add(0)) == s4 && Step(s4, Add(0)) == Alone(1, 1, 1, TRYING);
    assert Enabled(s2, Add(0)) && Enabled(s3, Add(0)) && Enabled(s4, Add(0));
    hide Run, Step, Enabled;
    Reaches(c, events, s2, Add(0), s3);
    Reaches(c, events + [Add(0)], s3, Add(0), s4);
    Reaches(c, events + [Add(0)] + [Add(0)], s4, Add(0), Alone(1, 1, 1, TRYING));
    more := events + [Add(0)] + [Add(0)] + [Add(0)];
  }

  /** Such a snapshot: the first delivery fails between the two loads. */
  lemma TornSnapshot() returns (between: seq<Event>)
    ensures Run(NewCounters(1), between).Some?
    ensures Run(NewCounters(1), between).value.errorJobs > NewCounters(1).loadJobs
  {
    var c := NewCounters(1);
    var s5, s6 := Alone(1, 1, 1, TRYING), Alone(1, 1, 1, FAILING);
    var s7 := s6.(loadJobs := 1, workers := [FAILING.(phase := AddError)]);
    var s8 := s7.(errorJobs := 1, workers := [FAILING.(phase := AddRetries)]);
    assert Step(s5, Conclude(0, true)) == s6 && Step(s6, Add(0)) == s7 && Step(s7, Add(0)) == s8;
    assert Enabled(s5, Conclude(0, true)) && Enabled(s6, Add(0)) && Enabled(s7, Add(0)) && c.loadJobs == 0;
    hide Run, Step, Enabled, NewCounters;
    between := FirstAttempt();
    Reaches(c, between, s5, Conclude(0, true), s6);
    Reaches(c, between + [Conclude(0, true)], s6, Add(0), s7);
    Reaches(c, between + [Conclude(0, true)] + [Add(0)], s7, Add(0), s8);
    between := between + [Conclude(0, true)] + [Add(0)] + [Add(0)];
  }

  // ---- the two recording calls as runs of adds -----------------------------------

  /** Worker w is about to record an attempt at a batch of this size. */
  predicate RecordsAttempt(c: Counters, w: nat, bytes: int, records: int) {
    w < |c.workers| && c.workers[w].phase.AddAttempt? && c.workers[w].bytes == bytes && c.workers[w].records == records
  }

  /** Worker w is about to record the end of a delivery. */
  predicate RecordsCompletion(c: Counters, w: nat, failed: bool, attempts: int) {
    w < |c.workers| && c.workers[w].phase.AddJob? && c.workers[w].failed == failed && c.workers[w].attempts == attempts
  }

  lemma RunOn(c: Counters, events: seq<Event>, e: Event)
    requires Run(c, events).Some? && Enabled(Run(c, events).value, e)
    ensures Run(c, events + [e]) == Some(Step(Run(c, events).value, e))
  {
    assert (events + [e])[..|events|] == events;
  }

  lemma ThreeSteps(c: Counters, e: Event)
    requires Enabled(c, e) && Enabled(Step(c, e), e) && Enabled(Step(Step(c, e), e), e)
    ensures Run(c, [e, e, e]) == Some(Step(Step(Step(c, e), e), e))
  {
    hide Step, Enabled;
    RunOn(c, [], e);
    RunOn(c, [] + [e], e);
    RunOn(c, [] + [e] + [e], e);
    assert [] + [e] + [e] + [e] == [e, e, e];
  }

  /** Six totals, for comparison. */
  datatype Totals = Totals(attempts: int, bytes: int, records: int, jobs: int, errors: int, retries: int)

  function TotalsOf(c: Counters): Totals {
    Totals(c.uploadAttempts, c.bytesSent, c.recordsSent, c.loadJobs, c.errorJobs, c.retries)
  }

  /** Three adds of worker w, and no other step, make these totals. */
  ghost predicate ThreeAddsMake(c: Counters, w: nat, totals: Totals) {
    var r := Run(c, [Add(w), Add(w), Add(w)]);
    r.Some? && TotalsOf(r.value) == totals
  }

  /** An add is a tally and the worker's move. */
  lemma AddTallies(c: Counters, w: nat)
    requires w < |c.workers| && Adding(c.workers[w].phase)
    ensures Enabled(c, Add(w))
    ensures Step(c, Add(w)).workers == c.workers[w := Next(c.workers[w], Add(w))]
    ensures var x, t := c.workers[w], TotalsOf(c);
            TotalsOf(Step(c, Add(w))) ==
            match x.phase
            case AddAttempt => Totals(t.attempts + 1, t.bytes, t.records, t.jobs, t.errors, t.retries)
            case AddBytes => Totals(t.attempts, t.bytes + x.bytes, t.records, t.jobs, t.errors, t.retries)
            case AddRecords => Totals(t.attempts, t.bytes, t.records + x.records, t.jobs, t.errors, t.retries)
            case AddJob => Totals(t.attempts, t.bytes, t.records, t.jobs + 1, t.errors, t.retries)
            case AddError =>
              Totals(t.attempts, t.bytes, t.records, t.jobs, t.errors + (if x.failed then 1 else 0), t.retries)
            case _ =>
              Totals(t.attempts, t.bytes, t.records, t.jobs, t.errors, t.retries + Max(0, x.attempts - 1))
  {}

  lemma AttemptIsThreeAdds(c: Counters, w: nat)
    requires w < |c.workers| && c.workers[w].phase.AddAttempt?
    ensures Run(c, [Add(w), Add(w), Add(w)]).Some?
    ensures var t, x := TotalsOf(c), c.workers[w];
            TotalsOf(Run(c, [Add(w), Add(w), Add(w)]).value) ==
            Totals(t.attempts + 1, t.bytes + x.bytes, t.records + x.records, t.jobs, t.errors, t.retries)
  {
    hide Step, Enabled, Run, TotalsOf;
    AddTallies(c, w);
    var one := Step(c, Add(w));
    AddTallies(one, w);
    AddTallies(Step(one, Add(w)), w);
    ThreeSteps(c, Add(w));
  }

  lemma CompletionIsThreeAdds(c: Counters, w: nat)
    requires w < |c.workers| && c.workers[w].phase.AddJob?
    ensures Run(c, [Add(w), Add(w), Add(w)]).Some?
    ensures var t, x := TotalsOf(c), c.workers[w];
            TotalsOf(Run(c, [Add(w), Add(w), Add(w)]).value) ==
            Totals(t.attempts, t.bytes, t.records, t.jobs + 1, t.errors + (if x.failed then 1 else 0),
                   t.retries + Max(0, x.attempts - 1))
  {
    hide Step, Enabled, Run, TotalsOf;
    AddTallies(c, w);
    var one := Step(c, Add(w));
    AddTallies(one, w);
    AddTallies(Step(one, Add(w)), w);
    ThreeSteps(c, Add(w));
  }

  function Unfinished(w: Worker): int {
    if w.phase.Resting? then 0 else w.attempts
  }

  /** In every reachable state: no more errors than jobs. Whenever no worker is between
      two adds: attempts = jobs + retries + attempts of unfinished deliveries, and bytes
      and records are the sums over all attempts made. */
  lemma Conservation(workers: nat, events: seq<Event>)
    requires Run(NewCounters(workers), events).Some?
    ensures var c := Run(NewCounters(workers), events).value;
            && c.errorJobs <= c.loadJobs
            && ((forall i :: 0 <= i < |c.workers| ==> !Adding(c.workers[i].phase)) ==>
                  && c.uploadAttempts == c.loadJobs + c.retries + SumBy(Unfinished, c.workers)
                  && c.bytesSent == SumBy(BytesOf, c.made)
                  && c.recordsSent == SumBy(RecordsOf, c.made))
  {
    InitInv(workers);
    RunKeepsInv(NewCounters(workers), events);
    var c := Run(NewCounters(workers), events).value;
    SumAtLeast(UncountedError, c.workers);
    if forall i :: 0 <= i < |c.workers| ==> !Adding(c.workers[i].phase) {
      SumZero(UncountedBytes, c.workers);
      SumZero(UncountedRecords, c.workers);
      SumSame(c.workers);
    }
  }

  lemma {:induction false} SumSame(workers: seq<Worker>)
    requires forall i :: 0 <= i < |workers| ==> !Adding(workers[i].phase)
    requires forall i :: 0 <= i < |workers| ==> WorkerSound(workers[i])
    ensures SumBy(OpenAttempts, workers) == SumBy(Unfinished, workers)
  {
    if |workers| == 0 {
    } else {
      var front := workers[..|workers| - 1];
      assert forall i :: 0 <= i < |front| ==> front[i] == workers[i];
      SumSame(front);
    }
  }

  // ---- any number of attempts -------------------------------------------------------------

  function TryingAgain(n: nat): Counters {
    Counters(n, n, n, 0, 0, 0, [Worker(Trying, n, 1, 1, false)], seq(n, _ => Attempt(1, 1)))
  }

  /** One more attempt of one worker, counted in full. */
  lemma OneMoreAttempt(c: Counters, events: seq<Event>, n: nat) returns (more: seq<Event>)
    requires n >= 1 && Run(c, events) == Some(TryingAgain(n))
    ensures Run(c, more) == Some(TryingAgain(n + 1))
  {
    var a, made := TryingAgain(n), seq(n + 1, _ => Attempt(1, 1));
    var b := Counters(n, n, n, 0, 0, 0, [Worker(AddAttempt, n + 1, 1, 1, false)], made);
    var d := b.(uploadAttempts := n + 1, workers := [Worker(AddBytes, n + 1, 1, 1, false)]);
    var e := d.(bytesSent := n + 1, workers := [Worker(AddRecords, n + 1, 1, 1, false)]);
    assert a.made + [Attempt(1, 1)] == made;
    assert Step(a, Begin(0)) == b && Step(b, Add(0)) == d;
    assert Step(d, Add(0)) == e && Step(e, Add(0)) == TryingAgain(n + 1);
    assert Enabled(a, Begin(0)) && Enabled(b, Add(0)) && Enabled(d, Add(0)) && Enabled(e, Add(0));
    hide Run, Step, Enabled, TryingAgain;
    Reaches(c, events, a, Begin(0), b);
    Reaches(c, events + [Begin(0)], b, Add(0), d);
    Reaches(c, events + [Begin(0)] + [Add(0)], d, Add(0), e);
    Reaches(c, events + [Begin(0)] + [Add(0)] + [Add(0)], e, Add(0), TryingAgain(n + 1));
    more := events + [Begin(0)] + [Add(0)] + [Add(0)] + [Add(0)];
  }

  lemma {:induction false} AnyNumberOfAttempts(n: nat) returns (events: seq<Event>)
    requires n >= 1
    ensures Run(NewCounters(1), events) == Some(TryingAgain(n))
  {
    if n == 1 {
      events := FirstAttempt();
      assert Alone(1, 1, 1, TRYING) == TryingAgain(1);
    } else {
      var front := AnyNumberOfAttempts(n - 1);
      events := OneMoreAttempt(NewCounters(1), front, n - 1);
    }
  }

  /** A delivery of n attempts is counted as one job with n attempts and n - 1 retries, for
      every n, and as an error exactly when it failed. */
  lemma CountsOfOneDelivery(n: nat, failed: bool) returns (events: seq<Event>)
    requires n >= 1
    ensures Run(NewCounters(1), events).Some?
    ensures TotalsOf(Run(NewCounters(1), events).value) == Totals(n, n, n, 1, if failed then 1 else 0, n - 1)
  {
    var front := AnyNumberOfAttempts(n);
    var c := TryingAgain(n);
    var over := c.(workers := [Worker(AddJob, n, 1, 1, failed)]);
    assert Step(c, Conclude(0, failed)) == over && Enabled(c, Conclude(0, failed));
    CompletionIsThreeAdds(over, 0);
    Reaches(NewCounters(1), front, c, Conclude(0, failed), over);
    hide Step, Enabled, NewCounters;
    var said, adds := front + [Conclude(0, failed)], [Add(0), Add(0), Add(0)];
    RunsJoin(NewCounters(1), said, adds);
    events := said + adds;
  }

  lemma {:induction false} RunsJoin(c: Counters, a: seq<Event>, b: seq<Event>)
    requires Run(c, a).Some?
    ensures Run(c, a + b) == Run(Run(c, a).value, b)
  {
    if |b| == 0 {
      assert a + b == a;
    } else {
      var front := b[..|b| - 1];
      RunsJoin(c, a, front);
      assert (a + b)[..|a + b| - 1] == a + front && (a + b)[|a + b| - 1] == b[|b| - 1];
      hide Step, Enabled;
    }
  }
}
