/** The batcher's packing rule as a left fold, and what it achieves: nothing lost,
    every body within the limit, and the fewest batches possible. */
module Packing {
  import opened Seqs
  import opened Encoding
  import opened Submissions

  /** Batches already sealed, and the open one (empty when there is none). */
  datatype Packer = Packer(sealed: seq<seq<Submission>>, open: seq<Submission>)

  /** What the batcher reacts to, in order: a submission, or a flush. */
  datatype Token = Arrive(s: Submission) | Flush

  const EMPTY := Packer([], [])

  function Seal(p: Packer): Packer {
    if |p.open| == 0 then p else Packer(p.sealed + [p.open], [])
  }

  predicate MustFlushFirst(mode: Mode, limit: int, open: seq<Submission>, s: Submission) {
    |open| > 0 && limit > 0 && BatchSize(mode, open) + s.appendByteSize > limit
  }

  predicate IsFull(mode: Mode, limit: int, open: seq<Submission>) {
    limit > 0 && BatchSize(mode, open) >= limit
  }

  function AddSubmission(mode: Mode, limit: int, p: Packer, s: Submission): Packer {
    var ready := if MustFlushFirst(mode, limit, p.open, s) then Seal(p) else p;
    var added := ready.(open := ready.open + [s]);
    if IsFull(mode, limit, added.open) then Seal(added) else added
  }

  function Consume(mode: Mode, limit: int, p: Packer, t: Token): Packer {
    match t
    case Arrive(s) => AddSubmission(mode, limit, p, s)
    case Flush => Seal(p)
  }

  function Fold(mode: Mode, limit: int, p: Packer, log: seq<Token>): Packer {
    if |log| == 0 then p
    else Consume(mode, limit, Fold(mode, limit, p, log[..|log| - 1]), log[|log| - 1])
  }

  function Arrivals(log: seq<Token>): seq<Submission> {
    if |log| == 0 then []
    else match log[|log| - 1]
      case Arrive(s) => Arrivals(log[..|log| - 1]) + [s]
      case Flush => Arrivals(log[..|log| - 1])
  }

  function Contents(p: Packer): seq<Submission> {
    Concat(p.sealed) + p.open
  }

  lemma FoldAppend(mode: Mode, limit: int, p: Packer, log: seq<Token>, t: Token)
    ensures Fold(mode, limit, p, log + [t]) == Consume(mode, limit, Fold(mode, limit, p, log), t)
    ensures Arrivals(log + [t]) == Arrivals(log) + (if t.Arrive? then [t.s] else [])
  {
    assert (log + [t])[..|log|] == log;
  }

  lemma {:induction false} FoldSplit(mode: Mode, limit: int, p: Packer, a: seq<Token>, b: seq<Token>)
    ensures Fold(mode, limit, p, a + b) == Fold(mode, limit, Fold(mode, limit, p, a), b)
  {
    hide AddSubmission, Seal;
    if |b| == 0 {
      assert a + b == a;
    } else {
      var front, t := b[..|b| - 1], b[|b| - 1];
      FoldSplit(mode, limit, p, a, front);
      assert a + b == (a + front) + [t];
      FoldAppend(mode, limit, p, a + front, t);
      assert b == front + [t];
      FoldAppend(mode, limit, Fold(mode, limit, p, a), front, t);
    }
  }

  /** Conservation: the batches, in order, hold exactly the arrivals, in order. */
  lemma {:induction false} FoldKeepsEverything(mode: Mode, limit: int, log: seq<Token>)
    ensures Contents(Fold(mode, limit, EMPTY, log)) == Arrivals(log)
  {
    if |log| == 0 {
    } else {
      var front, t := log[..|log| - 1], log[|log| - 1];
      FoldKeepsEverything(mode, limit, front);
      ConsumeContents(mode, limit, Fold(mode, limit, EMPTY, front), t);
    }
  }

  lemma SealContents(p: Packer)
    ensures Contents(Seal(p)) == Contents(p)
  {
    ConcatAppend(p.sealed, p.open);
  }

  lemma AppendContents(p: Packer, s: Submission)
    ensures Contents(p.(open := p.open + [s])) == Contents(p) + [s]
  {
    assert Concat(p.sealed) + (p.open + [s]) == (Concat(p.sealed) + p.open) + [s];
  }

  lemma ConsumeContents(mode: Mode, limit: int, p: Packer, t: Token)
    ensures Contents(Consume(mode, limit, p, t)) == Contents(p) + (if t.Arrive? then [t.s] else [])
  {
    hide Contents, Seal, IsFull, MustFlushFirst;
    SealContents(p);
    if t.Arrive? {
      var ready := if MustFlushFirst(mode, limit, p.open, t.s) then Seal(p) else p;
      AppendContents(ready, t.s);
      SealContents(ready.(open := ready.open + [t.s]));
    }
  }

  /** Submissions as admission lets them through. */
  ghost predicate Admitted(mode: Mode, limit: int, subs: seq<Submission>) {
    AllWellSized(mode, subs) && forall i :: 0 <= i < |subs| ==> FitsLimit(limit, subs[i].standaloneByteSize)
  }

  ghost predicate GoodBatch(mode: Mode, limit: int, batch: seq<Submission>) {
    && |batch| > 0
    && Admitted(mode, limit, batch)
    && FitsLimit(limit, BatchSize(mode, batch))
  }

  /** Sealed batches are sendable, and an open batch still has room. */
  ghost predicate GoodPacker(mode: Mode, limit: int, p: Packer) {
    && (forall k :: 0 <= k < |p.sealed| ==> GoodBatch(mode, limit, p.sealed[k]))
    && Admitted(mode, limit, p.open)
    && (limit > 0 ==> BatchSize(mode, p.open) < limit)
  }

  lemma AdmittedAppend(mode: Mode, limit: int, subs: seq<Submission>, s: Submission)
    ensures Admitted(mode, limit, subs + [s]) <==>
              Admitted(mode, limit, subs) && WellSized(mode, s) && FitsLimit(limit, s.standaloneByteSize)
  {
    var all := subs + [s];
    if Admitted(mode, limit, all) {
      assert forall i :: 0 <= i < |subs| ==> all[i] == subs[i];
      assert all[|subs|] == s;
    }
  }

  /** Adding one admitted submission to a batch that has room, or to none, fits. */
  lemma AddFits(mode: Mode, limit: int, open: seq<Submission>, s: Submission)
    requires Admitted(mode, limit, open)
    requires WellSized(mode, s) && FitsLimit(limit, s.standaloneByteSize)
    requires !MustFlushFirst(mode, limit, open, s)
    ensures GoodBatch(mode, limit, open + [s])
  {
    SizeAfterAppend(mode, open, s);
    AdmittedAppend(mode, limit, open, s);
  }

  lemma SealGood(mode: Mode, limit: int, p: Packer)
    requires forall k :: 0 <= k < |p.sealed| ==> GoodBatch(mode, limit, p.sealed[k])
    requires |p.open| > 0 ==> GoodBatch(mode, limit, p.open)
    ensures GoodPacker(mode, limit, Seal(p))
  {
    assert BatchSize(mode, []) == 0;
    hide BatchSize, GoodBatch;
    assert |p.open| == 0 ==> Seal(p) == p;
  }

  lemma ConsumeGood(mode: Mode, limit: int, p: Packer, t: Token)
    requires GoodPacker(mode, limit, p)
    requires t.Arrive? ==> WellSized(mode, t.s) && FitsLimit(limit, t.s.standaloneByteSize)
    ensures GoodPacker(mode, limit, Consume(mode, limit, p, t))
  {
    assert |p.open| > 0 ==> GoodBatch(mode, limit, p.open);
    SealGood(mode, limit, p);
    if t.Arrive? {
      var cut := MustFlushFirst(mode, limit, p.open, t.s);
      var ready := if cut then Seal(p) else p;
      var added := ready.(open := ready.open + [t.s]);
      AddFits(mode, limit, ready.open, t.s);
      SealGood(mode, limit, added);
      hide BatchSize, GoodBatch, WellSized, Admitted;
      assert GoodPacker(mode, limit, added) || IsFull(mode, limit, added.open);
    }
  }

  /** Every dispatched body is within the limit, although the queue's own byte counts are
      one byte off whenever they top up an open batch. */
  lemma {:induction false} FoldRespectsLimit(mode: Mode, limit: int, log: seq<Token>)
    requires Admitted(mode, limit, Arrivals(log))
    ensures GoodPacker(mode, limit, Fold(mode, limit, EMPTY, log))
  {
    if |log| == 0 {
    } else {
      var front, t := log[..|log| - 1], log[|log| - 1];
      assert log == front + [t];
      FoldAppend(mode, limit, EMPTY, front, t);
      if t.Arrive? {
        AdmittedAppend(mode, limit, Arrivals(front), t.s);
      }
      FoldRespectsLimit(mode, limit, front);
      ConsumeGood(mode, limit, Fold(mode, limit, EMPTY, front), t);
    }
  }

  // ---- the fewest batches -------------------------------------------------

  /** Batches a packer has cost so far. */
  function Cost(p: Packer): nat {
    |p.sealed| + if |p.open| > 0 then 1 else 0
  }

  function Tokens(subs: seq<Submission>): seq<Token> {
    if |subs| == 0 then [] else Tokens(subs[..|subs| - 1]) + [Arrive(subs[|subs| - 1])]
  }

  lemma TokensAppend(subs: seq<Submission>, s: Submission)
    ensures Tokens(subs + [s]) == Tokens(subs) + [Arrive(s)]
  {
    assert (subs + [s])[..|subs|] == subs;
  }

  lemma {:induction false} TokensSplit(a: seq<Submission>, b: seq<Submission>)
    ensures Tokens(a + b) == Tokens(a) + Tokens(b)
  {
    if |b| == 0 {
      assert a + b == a;
    } else {
      var front := b[..|b| - 1];
      TokensSplit(a, front);
      assert a + b == (a + front) + [b[|b| - 1]];
      TokensAppend(a + front, b[|b| - 1]);
    }
  }

  lemma {:induction false} ArrivalsOfTokens(subs: seq<Submission>)
    ensures Arrivals(Tokens(subs)) == subs
  {
    if |subs| == 0 {
    } else {
      var front, s := subs[..|subs| - 1], subs[|subs| - 1];
      ArrivalsOfTokens(front);
      FoldAppend(CSV, 0, EMPTY, Tokens(front), Arrive(s));
    }
  }

  /** An order-preserving way of cutting `subs` into bodies that may be sent. */
  ghost predicate IsPartition(mode: Mode, limit: int, subs: seq<Submission>, parts: seq<seq<Submission>>) {
    && Concat(parts) == subs
    && forall k :: 0 <= k < |parts| ==> FitsLimit(limit, BatchSize(mode, parts[k]))
  }

  lemma {:induction false} RecordsSplit(a: seq<Submission>, b: seq<Submission>)
    ensures RecordsOf(a + b) == RecordsOf(a) + RecordsOf(b)
  {
    if |b| == 0 {
      assert a + b == a;
    } else {
      var front, s := b[..|b| - 1], b[|b| - 1];
      RecordsSplit(a, front);
      assert a + b == (a + front) + [s];
      RecordsAppend(a + front, s);
      assert (RecordsOf(a) + RecordsOf(front)) + s.records == RecordsOf(a) + (RecordsOf(front) + s.records);
    }
  }

  /** A piece of a batch encodes to no more than the whole. */
  lemma PieceIsNoLarger(mode: Mode, a: seq<Submission>, b: seq<Submission>)
    ensures BatchSize(mode, a) <= BatchSize(mode, a + b)
    ensures BatchSize(mode, b) <= BatchSize(mode, a + b)
  {
    RecordsSplit(a, b);
    PayloadSplit(RecordsOf(a), RecordsOf(b));
    PayloadNonNegative(RecordsOf(a));
    PayloadNonNegative(RecordsOf(b));
    BodyLength(mode, RecordsOf(a));
    BodyLength(mode, RecordsOf(b));
    BodyLength(mode, RecordsOf(a + b));
  }

  function Settle(mode: Mode, limit: int, sealed: seq<seq<Submission>>, batch: seq<Submission>): Packer {
    if IsFull(mode, limit, batch) then Packer(sealed + [batch], []) else Packer(sealed, batch)
  }

  /** While everything fits, the packer never cuts. */
  lemma {:induction false} FoldFits(mode: Mode, limit: int, p: Packer, part: seq<Submission>)
    requires AllWellSized(mode, p.open + part)
    requires !IsFull(mode, limit, p.open)
    requires FitsLimit(limit, BatchSize(mode, p.open + part))
    ensures Fold(mode, limit, p, Tokens(part)) == Settle(mode, limit, p.sealed, p.open + part)
  {
    if |part| == 0 {
      assert p.open + part == p.open;
    } else {
      var front, s := part[..|part| - 1], part[|part| - 1];
      var before := p.open + front;
      assert p.open + part == before + [s];
      FitsOneMore(mode, limit, before, s);
      hide BatchSize, WellSized;
      FoldFits(mode, limit, p, front);
      FoldAppend(mode, limit, p, Tokens(front), Arrive(s));
    }
  }

  /** If a batch still fits after `s`, it was not full before it. */
  lemma FitsOneMore(mode: Mode, limit: int, before: seq<Submission>, s: Submission)
    requires AllWellSized(mode, before + [s])
    requires FitsLimit(limit, BatchSize(mode, before + [s]))
    ensures AllWellSized(mode, before)
    ensures FitsLimit(limit, BatchSize(mode, before))
    ensures !IsFull(mode, limit, before) && !MustFlushFirst(mode, limit, before, s)
  {
    var all := before + [s];
    assert forall i :: 0 <= i < |before| ==> before[i] == all[i];
    assert all[|before|] == s;
    SizeAfterAppend(mode, before, s);
    PieceIsNoLarger(mode, before, [s]);
  }

  /** The longest prefix of `part` that still fits behind `open`. */
  lemma FittingPrefix(mode: Mode, limit: int, open: seq<Submission>, part: seq<Submission>) returns (j: nat)
    requires FitsLimit(limit, BatchSize(mode, open))
    ensures j <= |part|
    ensures FitsLimit(limit, BatchSize(mode, open + part[..j]))
    ensures j < |part| ==> !FitsLimit(limit, BatchSize(mode, open + part[..j + 1]))
  {
    hide BatchSize;
    j := 0;
    assert open + part[..0] == open;
    while j < |part| && FitsLimit(limit, BatchSize(mode, open + part[..j + 1]))
      invariant j <= |part|
      invariant FitsLimit(limit, BatchSize(mode, open + part[..j]))
    {
      j := j + 1;
    }
  }

  /** One more sendable part costs the greedy packer at most one more batch. */
  lemma PartCostsAtMostOne(mode: Mode, limit: int, p: Packer, part: seq<Submission>)
    requires GoodPacker(mode, limit, p)
    requires AllWellSized(mode, part)
    requires FitsLimit(limit, BatchSize(mode, part))
    ensures Cost(Fold(mode, limit, p, Tokens(part))) <= Cost(p) + 1
  {
    hide BatchSize, Fold, WellSized, AddSubmission;
    var j := FittingPrefix(mode, limit, p.open, part);
    var head, tail := part[..j], part[j..];
    assert part == head + tail;
    FoldFits(mode, limit, p, head);
    if j == |part| {
      assert head == part;
    } else {
      if |p.open| == 0 {
        assert p.open + part[..j + 1] == part[..j + 1];
        assert part == part[..j + 1] + part[j + 1..];
        PieceIsNoLarger(mode, part[..j + 1], part[j + 1..]);
        assert false;
      }
      assert p.open + part[..j + 1] == (p.open + head) + [part[j]];
      PieceIsNoLarger(mode, head, tail);
      CutBefore(mode, limit, p.sealed, p.open + head, tail);
      TokensSplit(head, tail);
      FoldSplit(mode, limit, p, Tokens(head), Tokens(tail));
    }
  }

  /** When the next submission no longer fits, the batch before it is cut, and a tail
      that fits a batch of its own stays in one. */
  lemma CutBefore(mode: Mode, limit: int, sealed: seq<seq<Submission>>, batch: seq<Submission>, tail: seq<Submission>)
    requires |batch| > 0 && |tail| > 0
    requires AllWellSized(mode, batch) && AllWellSized(mode, tail)
    requires !FitsLimit(limit, BatchSize(mode, batch + [tail[0]]))
    requires FitsLimit(limit, BatchSize(mode, tail))
    ensures Fold(mode, limit, Settle(mode, limit, sealed, batch), Tokens(tail)) ==
            Settle(mode, limit, sealed + [batch], tail)
  {
    SizeAfterAppend(mode, batch, tail[0]);
    var p, next := Settle(mode, limit, sealed, batch), Packer(sealed + [batch], []);
    assert AddSubmission(mode, limit, p, tail[0]) == AddSubmission(mode, limit, next, tail[0]);
    assert !IsFull(mode, limit, []);
    hide BatchSize, Fold, AddSubmission;
    StartOver(mode, limit, p, next, tail);
    assert [] + tail == tail;
    FoldFits(mode, limit, next, tail);
  }

  /** Two packers that agree after the next submission agree from then on. */
  lemma {:induction false} StartOver(mode: Mode, limit: int, p: Packer, q: Packer, subs: seq<Submission>)
    requires |subs| > 0
    requires AddSubmission(mode, limit, p, subs[0]) == AddSubmission(mode, limit, q, subs[0])
    ensures Fold(mode, limit, p, Tokens(subs)) == Fold(mode, limit, q, Tokens(subs))
  {
    var front, s := subs[..|subs| - 1], subs[|subs| - 1];
    FoldAppend(mode, limit, p, Tokens(front), Arrive(s));
    FoldAppend(mode, limit, q, Tokens(front), Arrive(s));
    if |front| == 0 {
    } else {
      StartOver(mode, limit, p, q, front);
    }
  }

  /** Greedy stays ahead: no order-preserving partition into sendable bodies uses fewer
      batches than the batcher does. */
  lemma {:induction false} GreedyNeedsFewest(mode: Mode, limit: int, subs: seq<Submission>, parts: seq<seq<Submission>>)
    requires Admitted(mode, limit, subs)
    requires IsPartition(mode, limit, subs, parts)
    decreases |parts|
    ensures Cost(Fold(mode, limit, EMPTY, Tokens(subs))) <= |parts|
  {
    hide BatchSize, Consume, Settle;
    if |parts| == 0 {
    } else {
      var front, part := parts[..|parts| - 1], parts[|parts| - 1];
      var before := Concat(front);
      assert forall i :: 0 <= i < |before| ==> before[i] == subs[i];
      assert forall i :: 0 <= i < |part| ==> part[i] == subs[|before| + i];
      GreedyNeedsFewest(mode, limit, before, front);
      ArrivalsOfTokens(before);
      FoldRespectsLimit(mode, limit, Tokens(before));
      var p := Fold(mode, limit, EMPTY, Tokens(before));
      PartCostsAtMostOne(mode, limit, p, part);
      TokensSplit(before, part);
      FoldSplit(mode, limit, EMPTY, Tokens(before), Tokens(part));
    }
  }

  /** The batches a packer has made, counting the open one. */
  function Batches(p: Packer): seq<seq<Submission>> {
    if |p.open| == 0 then p.sealed else p.sealed + [p.open]
  }

  lemma BatchesAreAPartition(mode: Mode, limit: int, p: Packer)
    requires GoodPacker(mode, limit, p)
    ensures IsPartition(mode, limit, Contents(p), Batches(p)) && |Batches(p)| == Cost(p)
  {
    hide BatchSize, Admitted;
    ConcatAppend(p.sealed, p.open);
  }

  /** ... and the batcher's own cut is one of those partitions, so the bound is met. */
  lemma GreedyIsAPartition(mode: Mode, limit: int, subs: seq<Submission>)
    requires Admitted(mode, limit, subs)
    ensures var p := Fold(mode, limit, EMPTY, Tokens(subs));
            IsPartition(mode, limit, subs, Batches(p)) && |Batches(p)| == Cost(p)
  {
    hide *;
    ArrivalsOfTokens(subs);
    FoldKeepsEverything(mode, limit, Tokens(subs));
    FoldRespectsLimit(mode, limit, Tokens(subs));
    BatchesAreAPartition(mode, limit, Fold(mode, limit, EMPTY, Tokens(subs)));
  }

  /** What is already sealed plays no part in later decisions. */
  lemma {:induction false} SealedIsInert(mode: Mode, limit: int, sealed: seq<seq<Submission>>, log: seq<Token>)
    ensures var q := Fold(mode, limit, EMPTY, log);
            Fold(mode, limit, Packer(sealed, []), log) == Packer(sealed + q.sealed, q.open)
  {
    if |log| > 0 {
      SealedIsInert(mode, limit, sealed, log[..|log| - 1]);
      ConsumeIsLocal(mode, limit, sealed, Fold(mode, limit, EMPTY, log[..|log| - 1]), log[|log| - 1]);
    } else {
      assert sealed + [] == sealed;
    }
  }

  lemma ConsumeIsLocal(mode: Mode, limit: int, sealed: seq<seq<Submission>>, q: Packer, t: Token)
    ensures var r := Consume(mode, limit, q, t);
            Consume(mode, limit, Packer(sealed + q.sealed, q.open), t) == Packer(sealed + r.sealed, r.open)
  {
    SealIsLocal(sealed, q);
    if t.Arrive? {
      var ready := if MustFlushFirst(mode, limit, q.open, t.s) then Seal(q) else q;
      SealIsLocal(sealed, ready.(open := ready.open + [t.s]));
    }
  }

  lemma SealIsLocal(sealed: seq<seq<Submission>>, q: Packer)
    ensures Seal(Packer(sealed + q.sealed, q.open)) == Packer(sealed + Seal(q).sealed, Seal(q).open)
  {
    assert sealed + (q.sealed + [q.open]) == (sealed + q.sealed) + [q.open];
  }

  lemma ConsumeSealsMore(mode: Mode, limit: int, p: Packer, t: Token)
    ensures p.sealed <= Consume(mode, limit, p, t).sealed
  {
    hide BatchSize;
  }

  lemma {:induction false} SealedOnlyGrow(mode: Mode, limit: int, a: seq<Token>, b: seq<Token>)
    ensures Fold(mode, limit, EMPTY, a).sealed <= Fold(mode, limit, EMPTY, a + b).sealed
  {
    if |b| == 0 {
      assert a + b == a;
    } else {
      var front, t := b[..|b| - 1], b[|b| - 1];
      SealedOnlyGrow(mode, limit, a, front);
      assert a + b == (a + front) + [t];
      FoldAppend(mode, limit, EMPTY, a + front, t);
      ConsumeSealsMore(mode, limit, Fold(mode, limit, EMPTY, a + front), t);
      hide Fold, Consume;
    }
  }

  /** From the start of a run or from any flush on, the batcher spends the fewest batches any
      order-preserving partition of what has arrived since could, the open one included. */
  lemma FewestSinceFlush(mode: Mode, limit: int, start: seq<Token>, subs: seq<Submission>,
                         parts: seq<seq<Submission>>)
    requires start == [] || start[|start| - 1] == Flush
    requires Admitted(mode, limit, subs)
    requires IsPartition(mode, limit, subs, parts)
    ensures var p := Fold(mode, limit, EMPTY, start);
            p.open == [] && Cost(Fold(mode, limit, EMPTY, start + Tokens(subs))) <= |p.sealed| + |parts|
  {
    var p := Fold(mode, limit, EMPTY, start);
    assert p == Packer(p.sealed, []);
    hide BatchSize, AddSubmission, IsPartition, Admitted;
    FoldSplit(mode, limit, EMPTY, start, Tokens(subs));
    SealedIsInert(mode, limit, p.sealed, Tokens(subs));
    GreedyNeedsFewest(mode, limit, subs, parts);
  }

  lemma FlushCostsNothing(mode: Mode, limit: int, log: seq<Token>)
    ensures Cost(Fold(mode, limit, EMPTY, log + [Flush])) == Cost(Fold(mode, limit, EMPTY, log))
    ensures |Fold(mode, limit, EMPTY, log + [Flush]).sealed| == Cost(Fold(mode, limit, EMPTY, log))
  {
    FoldAppend(mode, limit, EMPTY, log, Flush);
    hide Fold;
  }

  /** Between two flushes, in the middle of any run, the batcher dispatches the fewest
      batches any order-preserving partition of that stretch could. */
  lemma FewestBetweenFlushes(mode: Mode, limit: int, before: seq<Token>, subs: seq<Submission>,
                             parts: seq<seq<Submission>>)
    requires Admitted(mode, limit, subs)
    requires IsPartition(mode, limit, subs, parts)
    ensures var p := Fold(mode, limit, EMPTY, before + [Flush]);
            var q := Fold(mode, limit, EMPTY, before + [Flush] + Tokens(subs) + [Flush]);
            |p.sealed| <= |q.sealed| <= |p.sealed| + |parts|
  {
    hide Fold, Admitted, IsPartition;
    SealedOnlyGrow(mode, limit, before + [Flush], Tokens(subs) + [Flush]);
    assert before + [Flush] + (Tokens(subs) + [Flush]) == before + [Flush] + Tokens(subs) + [Flush];
    FewestSinceFlush(mode, limit, before + [Flush], subs, parts);
    FlushCostsNothing(mode, limit, before + [Flush] + Tokens(subs));
  }
}
