/** The benchmark's workers claim rows from one shared counter, one atomic add a row. */
module RowClaims {
  import opened Seqs

  datatype Pc = Top | Claiming(rows: seq<nat>) | Sending(rows: seq<nat>) | Checking | Stopped

  /** `overshot`: the worker has drawn a number past the last row. */
  datatype Worker = Worker(pc: Pc, overshot: bool)

  datatype Pool = Pool(total: nat, batch: nat, counter: nat, workers: seq<Worker>, submitted: seq<seq<nat>>)

  datatype Event = Begin(w: nat) | Claim(w: nat) | Send(w: nat) | Check(w: nat)

  function NewPool(total: nat, batch: nat, threads: nat): Pool {
    Pool(total, batch, 0, seq(threads, _ => Worker(Top, false)), [])
  }

  predicate Enabled(p: Pool, e: Event) {
    e.w < |p.workers| &&
    var pc := p.workers[e.w].pc;
    match e
    case Begin(_) => pc.Top?
    case Claim(_) => pc.Claiming?
    case Send(_) => pc.Sending?
    case Check(_) => pc.Checking?
  }

  /** One turn of the claiming loop, after `row` was drawn. */
  function AfterClaim(p: Pool, w: Worker, row: nat): Worker
    requires w.pc.Claiming?
  {
    var rows := w.pc.rows;
    if row > p.total then Worker(if |rows| == 0 then Checking else Sending(rows), true)
    else if |rows| + 1 < p.batch then w.(pc := Claiming(rows + [row]))
    else w.(pc := Sending(rows + [row]))
  }

  function Step(p: Pool, e: Event): Pool
    requires Enabled(p, e)
  {
    var w := p.workers[e.w];
    match e
    case Begin(i) => p.(workers := p.workers[i := w.(pc := Claiming([]))])
    case Claim(i) => p.(workers := p.workers[i := AfterClaim(p, w, p.counter + 1)], counter := p.counter + 1)
    case Send(i) => p.(workers := p.workers[i := w.(pc := Checking)], submitted := p.submitted + [w.pc.rows])
    case Check(i) => p.(workers := p.workers[i := w.(pc := if p.counter >= p.total then Stopped else Top)])
  }

  function Run(p: Pool, events: seq<Event>): Option<Pool> {
    if |events| == 0 then Some(p)
    else match Run(p, events[..|events| - 1])
      case None => None
      case Some(m) =>
        var e := events[|events| - 1];
        if Enabled(m, e) then Some(Step(m, e)) else None
  }

  /** A group never exceeds one batch, so the sending loop makes exactly one call. */
  method SendInChunks(rows: seq<nat>, batch: nat) returns (calls: seq<seq<nat>>)
    requires 0 < |rows| <= batch
    ensures calls == [rows]
  {
    calls := [];
    var start := 0;
    while start < |rows|
      invariant start == 0 ==> calls == []
      invariant start > 0 ==> calls == [rows] && start >= |rows|
      decreases |rows| - start
    {
      var end := Min(start + batch, |rows|);
      calls := calls + [rows[start..end]];
      assert rows[0..|rows|] == rows;
      start := start + batch;
    }
  }

  // ---- invariant ------------------------------------------------------------------

  function RowsOf(w: Worker): seq<nat> {
    match w.pc
    case Claiming(rows) => rows
    case Sending(rows) => rows
    case _ => []
  }

  function Holds(row: nat): Worker -> int {
    (w: Worker) => multiset(RowsOf(w))[row]
  }

  function Overshoots(w: Worker): int {
    if w.overshot then 1 else 0
  }

  /** How often `row` has been claimed: submitted, or in some worker's hands. */
  function Claimed(p: Pool, row: nat): int {
    multiset(Concat(p.submitted))[row] + SumBy(Holds(row), p.workers)
  }

  ghost predicate WorkerSound(p: Pool, w: Worker) {
    && (w.overshot ==> p.counter > p.total && !w.pc.Top? && !w.pc.Claiming?)
    && (w.pc.Claiming? ==> |w.pc.rows| < p.batch)
    && (w.pc.Sending? ==> 0 < |w.pc.rows| <= p.batch)
    && (w.pc.Stopped? ==> p.counter >= p.total)
  }

  ghost predicate Inv(p: Pool) {
    && p.batch > 0
    && (forall row: nat :: Claimed(p, row) == if 1 <= row <= Min(p.counter, p.total) then 1 else 0)
    && p.counter <= p.total + SumBy(Overshoots, p.workers)
    && (forall i :: 0 <= i < |p.workers| ==> WorkerSound(p, p.workers[i]))
    && (forall k :: 0 <= k < |p.submitted| ==> 0 < |p.submitted[k]| <= p.batch)
  }

  lemma InitInv(total: nat, batch: nat, threads: nat)
    requires batch > 0
    ensures Inv(NewPool(total, batch, threads))
  {
    var p := NewPool(total, batch, threads);
    SumZero(Overshoots, p.workers);
    forall row: nat
      ensures Claimed(p, row) == 0
    {
      SumZero(Holds(row), p.workers);
    }
  }

  lemma RowsAfterClaim(p: Pool, w: Worker, row: nat)
    requires w.pc.Claiming?
    ensures RowsOf(AfterClaim(p, w, row)) == if row > p.total then RowsOf(w) else RowsOf(w) + [row]
  {}

  lemma OneMore(rows: seq<nat>, last: nat, row: nat)
    ensures multiset(rows + [last])[row] == multiset(rows)[row] + if row == last then 1 else 0
  {
    assert multiset(rows + [last]) == multiset(rows) + multiset{last};
  }

  /** What one step does to the rows in a worker's hands. */
  lemma RowsMove(p: Pool, e: Event)
    requires Enabled(p, e)
    ensures var before, after := RowsOf(p.workers[e.w]), RowsOf(Step(p, e).workers[e.w]);
            after == if e.Claim? && p.counter + 1 <= p.total then before + [p.counter + 1]
                     else if e.Send? then []
                     else before
  {
    if e.Claim? {
      RowsAfterClaim(p, p.workers[e.w], p.counter + 1);
    }
    hide AfterClaim;
  }

  predicate Draws(p: Pool, e: Event, row: nat) {
    e.Claim? && row == p.counter + 1 <= p.total
  }

  /** How often `row` leaves a worker's hands for the submitted groups in this step. */
  function Leaving(p: Pool, e: Event, row: nat): int
    requires Enabled(p, e)
  {
    if e.Send? then multiset(RowsOf(p.workers[e.w]))[row] else 0
  }

  lemma ActorClaims(p: Pool, e: Event, row: nat)
    requires Enabled(p, e)
    ensures Holds(row)(Step(p, e).workers[e.w]) ==
            Holds(row)(p.workers[e.w]) + (if Draws(p, e, row) then 1 else 0) - Leaving(p, e, row)
  {
    var before, after := p.workers[e.w], Step(p, e).workers[e.w];
    RowsMove(p, e);
    OneMore(RowsOf(before), p.counter + 1, row);
    HoldsIs(before, row);
    HoldsIs(after, row);
    hide Step, Enabled, RowsOf, Holds;
  }

  lemma HoldsIs(w: Worker, row: nat)
    ensures Holds(row)(w) == multiset(RowsOf(w))[row]
  {}

  lemma WorkersClaim(p: Pool, e: Event, row: nat)
    requires Enabled(p, e)
    ensures SumBy(Holds(row), Step(p, e).workers) ==
            SumBy(Holds(row), p.workers) + (if Draws(p, e, row) then 1 else 0) - Leaving(p, e, row)
  {
    var q := Step(p, e);
    assert q.workers == p.workers[e.w := q.workers[e.w]];
    SumUpdate(Holds(row), p.workers, e.w, q.workers[e.w]);
    ActorClaims(p, e, row);
    hide Step, RowsOf, Holds, SumBy, Draws, Leaving;
  }

  lemma SubmittedGains(p: Pool, e: Event, row: nat)
    requires Enabled(p, e)
    ensures multiset(Concat(Step(p, e).submitted))[row] == multiset(Concat(p.submitted))[row] + Leaving(p, e, row)
  {
    var group := RowsOf(p.workers[e.w]);
    assert Step(p, e).submitted == if e.Send? then p.submitted + [group] else p.submitted;
    hide Step, RowsOf, Concat;
    ConcatAppend(p.submitted, group);
    assert multiset(Concat(p.submitted) + group) == multiset(Concat(p.submitted)) + multiset(group);
  }

  /** One claim adds exactly the drawn row, and a submission moves rows without change. */
  lemma StepClaims(p: Pool, e: Event, row: nat)
    requires Enabled(p, e)
    ensures Claimed(Step(p, e), row) == Claimed(p, row) + if Draws(p, e, row) then 1 else 0
  {
    hide Step, RowsOf, Holds, SumBy, Concat, Draws, Leaving;
    WorkersClaim(p, e, row);
    SubmittedGains(p, e, row);
  }

  lemma StepCounts(p: Pool, e: Event)
    requires Enabled(p, e)
    ensures var q := Step(p, e);
            q.total == p.total && q.batch == p.batch && q.counter == p.counter + if e.Claim? then 1 else 0
  {
    hide AfterClaim;
  }

  lemma StepKeepsCounter(p: Pool, e: Event)
    requires Inv(p) && Enabled(p, e)
    ensures var q := Step(p, e); q.counter <= q.total + SumBy(Overshoots, q.workers)
  {
    var q := Step(p, e);
    assert WorkerSound(p, p.workers[e.w]);
    SumUpdate(Overshoots, p.workers, e.w, q.workers[e.w]);
    SumAtLeast(Overshoots, q.workers);
    hide Claimed, SumBy;
  }

  lemma StepKeepsWorkers(p: Pool, e: Event)
    requires Inv(p) && Enabled(p, e)
    ensures var q := Step(p, e);
            && (forall i :: 0 <= i < |q.workers| ==> WorkerSound(q, q.workers[i]))
            && (forall k :: 0 <= k < |q.submitted| ==> 0 < |q.submitted[k]| <= q.batch)
  {
    assert WorkerSound(p, p.workers[e.w]);
    hide Claimed, SumBy;
  }

  lemma StepKeepsInv(p: Pool, e: Event)
    requires Inv(p) && Enabled(p, e)
    ensures Inv(Step(p, e))
  {
    var q := Step(p, e);
    StepKeepsCounter(p, e);
    StepKeepsWorkers(p, e);
    StepCounts(p, e);
    hide Step, Enabled, Claimed, SumBy, WorkerSound;
    forall row: nat
      ensures Claimed(q, row) == if 1 <= row <= Min(q.counter, q.total) then 1 else 0
    {
      StepClaims(p, e, row);
      assert Claimed(p, row) == if 1 <= row <= Min(p.counter, p.total) then 1 else 0;
    }
  }

  // ---- every run ends -----------------------------------------------------------------

  function Rank(w: Worker): int {
    match w.pc
    case Sending(_) => 5
    case Checking => 4
    case Top => 3
    case Claiming(_) => 2
    case Stopped => 0
  }

  function StepsLeft(p: Pool): int {
    4 * (p.total + |p.workers| - p.counter) + SumBy(Rank, p.workers)
  }

  lemma StepsLeftFalls(p: Pool, e: Event)
    requires Inv(p) && Enabled(p, e)
    ensures 0 <= StepsLeft(Step(p, e)) < StepsLeft(p)
  {
    StepKeepsInv(p, e);
    var q := Step(p, e);
    SumUpdate(Rank, p.workers, e.w, q.workers[e.w]);
    SumBound(Overshoots, q.workers, 1);
    SumAtLeast(Rank, q.workers);
    hide Inv, SumBy;
  }

  lemma {:induction false} RunKeepsInv(p: Pool, events: seq<Event>)
    requires Inv(p) && Run(p, events).Some?
    ensures Inv(Run(p, events).value)
    ensures StepsLeft(Run(p, events).value) + |events| <= StepsLeft(p)
    ensures Run(p, events).value.total == p.total && Run(p, events).value.batch == p.batch
    ensures |Run(p, events).value.workers| == |p.workers|
  {
    if |events| == 0 {
    } else {
      var front, e := events[..|events| - 1], events[|events| - 1];
      RunKeepsInv(p, front);
      StepKeepsInv(Run(p, front).value, e);
      StepsLeftFalls(Run(p, front).value, e);
    }
  }

  /** No run is longer than seven steps a thread and four a row, and a worker that has not
      stopped can always take its next step: all workers stop. A worker stops at its first
      check after the last row was drawn. */
  lemma AllStop(total: nat, batch: nat, threads: nat, events: seq<Event>)
    requires batch > 0 && Run(NewPool(total, batch, threads), events).Some?
    ensures |events| <= 4 * total + 7 * threads
    ensures var p := Run(NewPool(total, batch, threads), events).value;
            forall i :: 0 <= i < |p.workers| && !p.workers[i].pc.Stopped? ==>
              Enabled(p, Begin(i)) || Enabled(p, Claim(i)) || Enabled(p, Send(i)) || Enabled(p, Check(i))
    ensures var p := Run(NewPool(total, batch, threads), events).value;
            forall i: nat :: Enabled(p, Check(i)) ==>
              (Step(p, Check(i)).workers[i].pc.Stopped? <==> p.counter >= total)
  {
    var start := NewPool(total, batch, threads);
    InitInv(total, batch, threads);
    RunKeepsInv(start, events);
    var p := Run(start, events).value;
    SumBound(Rank, start.workers, 3);
    SumBound(Overshoots, p.workers, 1);
    SumAtLeast(Rank, p.workers);
  }

  // ---- groups are filled ----------------------------------------------------------------

  /** Short groups are put down to a worker that has drawn past the last row. */
  function Short(batch: nat): seq<nat> -> int {
    (rows: seq<nat>) => if |rows| < batch then 1 else 0
  }

  function Spent(w: Worker): int {
    if w.overshot && !w.pc.Sending? then 1 else 0
  }

  ghost predicate FilledInv(p: Pool) {
    && SumBy(Short(p.batch), p.submitted) <= SumBy(Spent, p.workers)
    && (forall i :: 0 <= i < |p.workers| ==>
          p.workers[i].pc.Sending? ==> |p.workers[i].pc.rows| >= p.batch || p.workers[i].overshot)
  }

  lemma StepKeepsFilled(p: Pool, e: Event)
    requires Inv(p) && FilledInv(p) && Enabled(p, e)
    ensures FilledInv(Step(p, e))
  {
    var q := Step(p, e);
    assert WorkerSound(p, p.workers[e.w]);
    SumUpdate(Spent, p.workers, e.w, q.workers[e.w]);
    if e.Send? {
      SumAppend(Short(p.batch), p.submitted, p.workers[e.w].pc.rows);
    }
    hide Claimed, SumBy;
  }

  lemma {:induction false} RunKeepsFilled(p: Pool, events: seq<Event>)
    requires Inv(p) && FilledInv(p) && Run(p, events).Some?
    ensures FilledInv(Run(p, events).value)
  {
    if |events| == 0 {
    } else {
      var front, e := events[..|events| - 1], events[|events| - 1];
      RunKeepsInv(p, front);
      RunKeepsFilled(p, front);
      StepKeepsFilled(Run(p, front).value, e);
      hide Inv, FilledInv, Step, Enabled;
    }
  }

  /** In every run the groups smaller than a batch are at most one for each thread. */
  lemma FewShortGroups(total: nat, batch: nat, threads: nat, events: seq<Event>)
    requires batch > 0 && Run(NewPool(total, batch, threads), events).Some?
    ensures SumBy(Short(batch), Run(NewPool(total, batch, threads), events).value.submitted) <= threads
  {
    var start := NewPool(total, batch, threads);
    InitInv(total, batch, threads);
    SumAtLeast(Spent, start.workers);
    RunKeepsInv(start, events);
    RunKeepsFilled(start, events);
    SumBound(Spent, Run(start, events).value.workers, 1);
    hide Inv, Run, Step;
  }

  /** When all have stopped, the submitted groups hold exactly the rows 1..total, each
      once, none larger than a batch, and the counter is at most one per thread beyond. */
  lemma EveryRowOnce(total: nat, batch: nat, threads: nat, events: seq<Event>)
    requires batch > 0 && threads > 0 && Run(NewPool(total, batch, threads), events).Some?
    requires var p := Run(NewPool(total, batch, threads), events).value;
             forall i :: 0 <= i < |p.workers| ==> p.workers[i].pc.Stopped?
    ensures var p := Run(NewPool(total, batch, threads), events).value;
            && (forall row: nat :: multiset(Concat(p.submitted))[row] == if 1 <= row <= total then 1 else 0)
            && (forall k :: 0 <= k < |p.submitted| ==> 0 < |p.submitted[k]| <= batch)
            && total <= p.counter <= total + threads
  {
    var start := NewPool(total, batch, threads);
    InitInv(total, batch, threads);
    RunKeepsInv(start, events);
    var p := Run(start, events).value;
    SumBound(Overshoots, p.workers, 1);
    assert WorkerSound(p, p.workers[0]);
    forall row: nat
      ensures multiset(Concat(p.submitted))[row] == if 1 <= row <= total then 1 else 0
    {
      SumZero(Holds(row), p.workers);
      assert Claimed(p, row) == if 1 <= row <= Min(p.counter, p.total) then 1 else 0;
    }
  }
}
