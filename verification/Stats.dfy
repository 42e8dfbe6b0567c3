/** Client statistics: counters, the ring of recent durations, and percentiles. */
module Stats {
  import opened Seqs
  import Flow = StatsFlow

  const MAX_LOAD_DURATIONS := 10000

  /** The last n of a history. */
  function LastN(history: seq<int>, n: nat): seq<int> {
    if |history| <= n then history else history[|history| - n..]
  }

  /** An outcome as the collector sees it; a zero time is None. */
  datatype Completed = Completed(failed: bool, attempts: int, startedAt: Option<int>, finishedAt: Option<int>)

  function DurationOf(c: Completed): Option<int> {
    if c.startedAt.Some? && c.finishedAt.Some? && c.finishedAt.value >= c.startedAt.value
    then Some(c.finishedAt.value - c.startedAt.value)
    else None
  }

  datatype Snapshot = Snapshot(totalJobs: int, errorJobs: int, attempts: int, bytes: int, records: int,
                               p50: int, p90: int, p99: int, p999: int)

  class ClientStatsCollector {
    var totalLoadJobs: int
    var errorJobs: int
    var totalRetries: int
    var totalBytesSent: int
    var totalRecordsSent: int
    var totalUploadAttempts: int
    var totalLoadTimeNanos: int
    var loadDurations: seq<int>
    var durIdx: nat
    ghost var history: seq<int> // every duration ever recorded

    /** Read from `durIdx` round, the buffer is the newest end of the history. */
    ghost predicate Valid()
      reads this
    {
      && |loadDurations| == Min(|history|, MAX_LOAD_DURATIONS)
      && durIdx < MAX_LOAD_DURATIONS
      && (|loadDurations| < MAX_LOAD_DURATIONS ==> durIdx == 0)
      && Window() == LastN(history, MAX_LOAD_DURATIONS)
    }

    ghost function Window(): seq<int>
      reads this
    {
      if durIdx <= |loadDurations| then loadDurations[durIdx..] + loadDurations[..durIdx] else loadDurations
    }

    constructor ()
      ensures Valid() && history == []
      ensures totalLoadJobs == errorJobs == totalRetries == totalUploadAttempts == 0
    {
      totalLoadJobs, errorJobs, totalRetries, totalBytesSent := 0, 0, 0, 0;
      totalRecordsSent, totalUploadAttempts, totalLoadTimeNanos := 0, 0, 0;
      loadDurations, durIdx, history := [], 0, [];
    }

    ghost function Counted(): Flow.Totals
      reads this
    {
      Flow.Totals(totalUploadAttempts, totalBytesSent, totalRecordsSent, totalLoadJobs, errorJobs, totalRetries)
    }

    /** Called by a worker that has begun an attempt, this is its three adds of the shared
        counters, so the balances proved of those hold of these. */
    method RecordUploadAttempt(bytes: int, records: int)
      modifies this`totalUploadAttempts, this`totalBytesSent, this`totalRecordsSent
      ensures totalUploadAttempts == old(totalUploadAttempts) + 1
      ensures totalBytesSent == old(totalBytesSent) + bytes
      ensures totalRecordsSent == old(totalRecordsSent) + records
      ensures forall c, w: nat :: Flow.RecordsAttempt(c, w, bytes, records) && Flow.TotalsOf(c) == old(Counted()) ==>
                Flow.ThreeAddsMake(c, w, Counted())
    {
      totalUploadAttempts := totalUploadAttempts + 1;
      totalBytesSent := totalBytesSent + bytes;
      totalRecordsSent := totalRecordsSent + records;
      forall c, w: nat | Flow.RecordsAttempt(c, w, bytes, records) && Flow.TotalsOf(c) == old(Counted())
        ensures Flow.ThreeAddsMake(c, w, Counted())
      {
        Flow.AttemptIsThreeAdds(c, w);
        hide Flow.Run;
      }
    }

    /** A worker whose delivery is over makes its last three adds. */
    method CountCompletion(failed: bool, attempts: int)
      modifies this`totalLoadJobs, this`errorJobs, this`totalRetries
      ensures totalLoadJobs == old(totalLoadJobs) + 1
      ensures errorJobs == old(errorJobs) + (if failed then 1 else 0)
      ensures totalRetries == old(totalRetries) + Max(0, attempts - 1)
      ensures forall c, w: nat ::
                Flow.RecordsCompletion(c, w, failed, attempts) && Flow.TotalsOf(c) == old(Counted()) ==>
                  Flow.ThreeAddsMake(c, w, Counted())
    {
      totalLoadJobs := totalLoadJobs + 1;
      if failed {
        errorJobs := errorJobs + 1;
      }
      if attempts > 1 {
        totalRetries := totalRetries + (attempts - 1);
      }
      forall c, w: nat | Flow.RecordsCompletion(c, w, failed, attempts) && Flow.TotalsOf(c) == old(Counted())
        ensures Flow.ThreeAddsMake(c, w, Counted())
      {
        Flow.CompletionIsThreeAdds(c, w);
        hide Flow.Run;
      }
    }

    method RecordDuration(duration: int)
      requires Valid()
      modifies this`loadDurations, this`durIdx, this`history
      ensures Valid() && history == old(history) + [duration]
    {
      ghost var window := Window();
      history := history + [duration];
      if |loadDurations| < MAX_LOAD_DURATIONS {
        loadDurations := loadDurations + [duration];
      } else {
        loadDurations := loadDurations[durIdx := duration];
        durIdx := (durIdx + 1) % MAX_LOAD_DURATIONS;
        assert Window() == window[1..] + [duration];
      }
    }

    /** Called by a worker whose delivery is over, this is its three adds at the end, and a
        duration recorded when both times are set and in order. */
    method RecordCompletion(result: Completed)
      requires Valid()
      modifies this`totalLoadJobs, this`errorJobs, this`totalRetries, this`totalLoadTimeNanos
      modifies this`loadDurations, this`durIdx, this`history
      ensures Valid()
      ensures totalLoadJobs == old(totalLoadJobs) + 1
      ensures errorJobs == old(errorJobs) + (if result.failed then 1 else 0)
      ensures totalRetries == old(totalRetries) + Max(0, result.attempts - 1)
      ensures if result.startedAt.None? || result.finishedAt.None? then
                history == old(history) && totalLoadTimeNanos == old(totalLoadTimeNanos)
              else
                var d := result.finishedAt.value - result.startedAt.value;
                && history == old(history) + (if d >= 0 then [d] else [])
                && totalLoadTimeNanos == old(totalLoadTimeNanos) + Max(0, d)
      ensures forall c, w: nat ::
                Flow.RecordsCompletion(c, w, result.failed, result.attempts) && Flow.TotalsOf(c) == old(Counted()) ==>
                  Flow.ThreeAddsMake(c, w, Counted())
    {
      hide Flow.ThreeAddsMake, Flow.RecordsCompletion, Flow.TotalsOf;
      CountCompletion(result.failed, result.attempts);
      var duration := DurationOf(result);
      if duration.Some? {
        totalLoadTimeNanos := totalLoadTimeNanos + duration.value;
        RecordDuration(duration.value);
      }
    }

    /** Percentiles come from the most recent durations, in whatever order the ring holds them. */
    method TakeSnapshot() returns (s: Snapshot)
      requires Valid()
      ensures s.totalJobs == totalLoadJobs && s.errorJobs == errorJobs && s.attempts == totalUploadAttempts
      ensures s.bytes == totalBytesSent && s.records == totalRecordsSent
      ensures |history| > 0 ==>
                var window := LastN(history, 10000);
                && HasRank(s.p50, window, 500) && HasRank(s.p90, window, 900)
                && HasRank(s.p99, window, 990) && HasRank(s.p999, window, 999)
      ensures s.p50 <= s.p90 <= s.p99 <= s.p999
      ensures |history| == 0 ==> s.p50 == s.p999 == 0
    {
      var p50, p90, p99, p999 := 0, 0, 0, 0;
      if |loadDurations| > 0 {
        var durations := Sorted(loadDurations);
        p50 := Percentile(durations, 500);
        p90 := Percentile(durations, 900);
        p99 := Percentile(durations, 990);
        p999 := Percentile(durations, 999);
        RotationHasRank(loadDurations, durIdx);
        assert Window() == LastN(history, MAX_LOAD_DURATIONS);
      }
      s := Snapshot(totalLoadJobs, errorJobs, totalUploadAttempts, totalBytesSent, totalRecordsSent,
                    p50, p90, p99, p999);
    }
  }

  // ---- sorting and rank -----------------------------------------------------------

  predicate IsSorted(xs: seq<int>) {
    forall i, j :: 0 <= i < j < |xs| ==> xs[i] <= xs[j]
  }

  function Insert(sorted: seq<int>, x: int): (r: seq<int>)
    requires IsSorted(sorted)
    ensures IsSorted(r) && |r| == |sorted| + 1
    ensures forall k :: 0 <= k < |r| ==> r[k] == x || r[k] in sorted
  {
    if |sorted| == 0 || sorted[|sorted| - 1] <= x then sorted + [x]
    else Insert(sorted[..|sorted| - 1], x) + [sorted[|sorted| - 1]]
  }

  /** The library sort: sorted, and a rearrangement (see `SortKeepsSums`). */
  function Sorted(xs: seq<int>): (r: seq<int>)
    ensures IsSorted(r) && |r| == |xs|
  {
    if |xs| == 0 then [] else Insert(Sorted(xs[..|xs| - 1]), xs[|xs| - 1])
  }

  lemma {:induction false} InsertKeepsSums(f: int -> int, sorted: seq<int>, x: int)
    requires IsSorted(sorted)
    ensures SumBy(f, Insert(sorted, x)) == SumBy(f, sorted) + f(x)
  {
    if |sorted| == 0 || sorted[|sorted| - 1] <= x {
      SumAppend(f, sorted, x);
    } else {
      var front, last := sorted[..|sorted| - 1], sorted[|sorted| - 1];
      InsertKeepsSums(f, front, x);
      SumAppend(f, Insert(front, x), last);
    }
  }

  /** Sorting changes no sum, hence no count: it is a permutation. */
  lemma {:induction false} SortKeepsSums(f: int -> int, xs: seq<int>)
    ensures SumBy(f, Sorted(xs)) == SumBy(f, xs)
  {
    if |xs| == 0 {
    } else {
      SortKeepsSums(f, xs[..|xs| - 1]);
      InsertKeepsSums(f, Sorted(xs[..|xs| - 1]), xs[|xs| - 1]);
    }
  }

  lemma {:induction false} SumSplit(f: int -> int, a: seq<int>, b: seq<int>)
    ensures SumBy(f, a + b) == SumBy(f, a) + SumBy(f, b)
  {
    if |b| == 0 {
      assert a + b == a;
    } else {
      var front, last := b[..|b| - 1], b[|b| - 1];
      SumSplit(f, a, front);
      assert a + b == (a + front) + [last];
      SumAppend(f, a + front, last);
    }
  }

  function Below(v: int): int -> int {
    (x: int) => if x < v then 1 else 0
  }

  function AtMost(v: int): int -> int {
    (x: int) => if x <= v then 1 else 0
  }

  /** Rank of the q-per-mille element among n. */
  function RankIndex(n: nat, q: nat): int
    requires n > 0
  {
    (n - 1) * q / 1000
  }

  /** `v` sits at rank q / 1000 of the way from the first value to the last: no more than
      that many lie below it, more than that many do not exceed it. */
  ghost predicate HasRank(v: int, window: seq<int>, q: nat)
    requires |window| > 0
  {
    SumBy(Below(v), window) <= (|window| - 1) * q / 1000 < SumBy(AtMost(v), window)
  }

  function Percentile(values: seq<int>, q: nat): int {
    if |values| == 0 then 0
    else if q == 0 then values[0]
    else if q >= 1000 then values[|values| - 1]
    else
      RankInRange(|values|, q);
      values[RankIndex(|values|, q)]
  }

  lemma {:induction false} ProductGrows(m: nat, a: nat, b: nat)
    requires a <= b
    ensures m * a <= m * b
  {
    if m > 0 {
      ProductGrows(m - 1, a, b);
      assert m * a == (m - 1) * a + a && m * b == (m - 1) * b + b;
    }
  }

  lemma RankInRange(n: nat, q: nat)
    requires n > 0 && q < 1000
    ensures 0 <= RankIndex(n, q) < n
  {
    ProductGrows(n - 1, 0, q);
    ProductGrows(n - 1, q, 1000);
    var product := (n - 1) * q;
    assert 0 <= product <= (n - 1) * 1000;
    assert 0 <= product / 1000 <= n - 1;
  }

  lemma RankGrows(n: nat, q: nat, r: nat)
    requires n > 0 && q <= r
    ensures RankIndex(n, q) <= RankIndex(n, r)
  {
    ProductGrows(n - 1, q, r);
    var a, b := (n - 1) * q, (n - 1) * r;
    assert a / 1000 <= b / 1000;
  }

  lemma FewBelow(sorted: seq<int>, i: nat)
    requires IsSorted(sorted) && i < |sorted|
    ensures SumBy(Below(sorted[i]), sorted) <= i
  {
    var f, low, high := Below(sorted[i]), sorted[..i], sorted[i..];
    assert sorted == low + high;
    assert forall k :: 0 <= k < |high| ==> f(high[k]) == 0;
    assert forall k :: 0 <= k < |low| ==> f(low[k]) <= 1;
    hide IsSorted, Below, SumBy;
    SumSplit(f, low, high);
    SumBound(f, low, 1);
    SumZero(f, high);
  }

  lemma EnoughAtMost(sorted: seq<int>, i: nat)
    requires IsSorted(sorted) && i < |sorted|
    ensures i < SumBy(AtMost(sorted[i]), sorted)
  {
    var f, low, high := AtMost(sorted[i]), sorted[..i + 1], sorted[i + 1..];
    assert sorted == low + high;
    assert forall k :: 0 <= k < |low| ==> f(low[k]) == 1;
    assert forall k :: 0 <= k < |high| ==> f(high[k]) >= 0;
    hide IsSorted, AtMost, SumBy;
    SumSplit(f, low, high);
    SumOnes(f, low);
    SumAtLeast(f, high);
  }

  lemma {:induction false} SumOnes(f: int -> int, xs: seq<int>)
    requires forall k :: 0 <= k < |xs| ==> f(xs[k]) == 1
    ensures SumBy(f, xs) == |xs|
  {
    if |xs| == 0 {
    } else {
      var front := xs[..|xs| - 1];
      assert forall k :: 0 <= k < |front| ==> front[k] == xs[k];
      SumOnes(f, front);
    }
  }

  lemma RankOf(v: int, window: seq<int>, q: nat)
    requires |window| > 0
    ensures HasRank(v, window, q) <==>
            SumBy(Below(v), window) <= RankIndex(|window|, q) < SumBy(AtMost(v), window)
  {
    hide SumBy, Below, AtMost;
  }

  /** The reported percentile has its rank in the window, however the ring is rotated. */
  lemma PercentileHasRank(buffer: seq<int>, turn: nat, q: nat)
    requires |buffer| > 0 && turn <= |buffer| && 0 < q < 1000
    ensures HasRank(Percentile(Sorted(buffer), q), buffer[turn..] + buffer[..turn], q)
  {
    hide Sorted, Below, AtMost, SumBy, RankIndex, IsSorted, HasRank;
    RankInRange(|buffer|, q);
    var i := RankIndex(|buffer|, q);
    var v := Sorted(buffer)[i];
    FewBelow(Sorted(buffer), i);
    EnoughAtMost(Sorted(buffer), i);
    RotationKeepsSum(Below(v), buffer, turn);
    RotationKeepsSum(AtMost(v), buffer, turn);
    SortKeepsSums(Below(v), buffer);
    SortKeepsSums(AtMost(v), buffer);
    var window := buffer[turn..] + buffer[..turn];
    assert |window| == |buffer|;
    RankOf(v, window, q);
    assert Percentile(Sorted(buffer), q) == v;
  }

  lemma RotationKeepsSum(f: int -> int, buffer: seq<int>, turn: nat)
    requires turn <= |buffer|
    ensures SumBy(f, buffer[turn..] + buffer[..turn]) == SumBy(f, buffer)
  {
    assert buffer == buffer[..turn] + buffer[turn..];
    SumSplit(f, buffer[..turn], buffer[turn..]);
    SumSplit(f, buffer[turn..], buffer[..turn]);
  }

  lemma RotationHasRank(buffer: seq<int>, turn: nat)
    requires |buffer| > 0 && turn <= |buffer|
    ensures var sorted, window := Sorted(buffer), buffer[turn..] + buffer[..turn];
            && HasRank(Percentile(sorted, 500), window, 500) && HasRank(Percentile(sorted, 900), window, 900)
            && HasRank(Percentile(sorted, 990), window, 990) && HasRank(Percentile(sorted, 999), window, 999)
            && Percentile(sorted, 500) <= Percentile(sorted, 900) <= Percentile(sorted, 990) <= Percentile(sorted, 999)
  {
    PercentileHasRank(buffer, turn, 500);
    PercentileHasRank(buffer, turn, 900);
    PercentileHasRank(buffer, turn, 990);
    PercentileHasRank(buffer, turn, 999);
    PercentilesOrdered(Sorted(buffer), 500, 900);
    PercentilesOrdered(Sorted(buffer), 900, 990);
    PercentilesOrdered(Sorted(buffer), 990, 999);
    hide HasRank, Percentile, Sorted;
  }

  /** A product rounded to less than a thousandth off picks the exact rank, or the one below
      it; the one below only where the exact product is a whole number. */
  lemma RoundedRank(n: nat, q: nat, product: real)
    requires n > 0
    requires -0.001 < product - ((n - 1) * q) as real / 1000.0 < 0.001
    ensures RankIndex(n, q) - 1 <= product.Floor <= RankIndex(n, q)
    ensures product.Floor == RankIndex(n, q) - 1 ==> (n - 1) * q % 1000 == 0
  {
    var exact := (n - 1) * q;
    var whole, part := exact / 1000, exact % 1000;
    assert exact as real / 1000.0 == whole as real + part as real / 1000.0;
    assert 0.0 <= part as real / 1000.0 <= 0.999;
    assert product < whole as real + 1.0;
    if part > 0 {
      assert part as real / 1000.0 >= 0.001;
    }
  }

  lemma PercentilesOrdered(sorted: seq<int>, q: nat, r: nat)
    requires IsSorted(sorted) && |sorted| > 0 && 0 < q <= r < 1000
    ensures Percentile(sorted, q) <= Percentile(sorted, r)
  {
    RankInRange(|sorted|, q);
    RankInRange(|sorted|, r);
    RankGrows(|sorted|, q, r);
  }
}
