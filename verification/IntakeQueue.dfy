/** The intake queue in the source's own form: one object updated in place. Each method
    is one critical section, or the collection loop with producers writing in between. */
module IntakeQueue {
  import Encoding
  import opened Seqs
  import opened Submissions

  class RequestQueue {
    const mode: Encoding.Mode
    const maxRequests: nat
    var items: seq<Submission>
    var slots: nat
    var closed: bool
    var pending: Option<Submission>
    ghost var accepted: seq<Submission>  // writes to `items`, in order
    ghost var delivered: seq<Submission> // handed out, in order

    ghost function Waiting(): seq<Submission>
      reads this
    {
      (if pending.Some? then [pending.value] else []) + items
    }

    /** Between calls every token belongs to a waiting submission. */
    ghost predicate Valid()
      reads this
    {
      && slots == |Waiting()| <= maxRequests
      && accepted == delivered + Waiting()
      && AllWellSized(mode, Waiting())
    }

    constructor (mode: Encoding.Mode, maxRequests: nat)
      ensures Valid() && accepted == [] && !closed
      ensures this.mode == mode && this.maxRequests == maxRequests
    {
      this.mode, this.maxRequests := mode, maxRequests;
      items, slots, closed, pending := [], 0, false, None;
      accepted, delivered := [], [];
    }

    /** An Enqueue call that is not kept waiting. With no slot left it could only wait, and
        fails when its context ends. */
    method Enqueue(s: Submission) returns (err: Option<SendError>)
      requires Valid() && (|s.records| > 0 ==> WellSized(mode, s))
      modifies this
      ensures Valid() && closed == old(closed) && delivered == old(delivered)
      ensures err == Some(ClientClosed) <==> |s.records| > 0 && old(closed)
      ensures err == Some(QueueFull) <==> |s.records| > 0 && !old(closed) && old(slots) == maxRequests
      ensures err.Some? ==> err.value.ClientClosed? || err.value.QueueFull?
      ensures accepted == old(accepted) + (if err.None? && |s.records| > 0 then [s] else [])
    {
      if |s.records| == 0 {
        return None;
      }
      if closed {
        return Some(ClientClosed);
      }
      if slots >= maxRequests {
        return Some(QueueFull);
      }
      hide WellSized;
      slots := slots + 1;
      items := items + [s];
      accepted := accepted + [s];
      assert Waiting() == old(Waiting()) + [s];
      return None;
    }

    method Close()
      requires Valid()
      modifies this`closed
      ensures Valid() && closed
    {
      closed := true;
    }

    method Len() returns (n: nat)
      requires Valid()
      ensures n == |Waiting()| <= maxRequests
    {
      n := |items|;
      if pending.Some? {
        n := n + 1;
      }
    }

    /** The pushed-back submission goes first; it is older than everything in `items`. */
    method TryPendingOrImmediate() returns (s: Option<Submission>)
      requires Valid()
      modifies this`pending, this`items
      ensures s.None? <==> old(Waiting()) == []
      ensures s.Some? ==> [s.value] + Waiting() == old(Waiting())
      ensures s.None? ==> Waiting() == []
      ensures pending.None?
    {
      if pending.Some? {
        s := pending;
        pending := None;
        return;
      }
      if |items| > 0 {
        s := Some(items[0]);
        items := items[1..];
        return;
      }
      return None;
    }

    /** Tokens and order while the consumer holds `held` and nothing is pushed back. */
    ghost predicate Holding(held: seq<Submission>)
      reads this
    {
      && pending.None?
      && slots == |items| + |held| <= maxRequests
      && accepted == delivered + held + items
      && AllWellSized(mode, held) && AllWellSized(mode, items)
    }

    /** What producers manage to write while the consumer is between two receives: they
        stop for want of tokens, not for want of submissions. */
    method ProducersWrite(eager: seq<Submission>, ghost held: seq<Submission>)
      requires Holding(held) && AllWellSized(mode, eager)
      modifies this`items, this`slots, this`accepted
      ensures Holding(held)
    {
      hide WellSized;
      var n := if closed then 0 else Min(|eager|, maxRequests - slots);
      JoinWaiting(delivered + held, items, eager[..n]);
      items := items + eager[..n];
      accepted := accepted + eager[..n];
      slots := slots + n;
    }

    static lemma JoinWaiting(done: seq<Submission>, waiting: seq<Submission>, more: seq<Submission>)
      ensures (done + waiting) + more == done + (waiting + more)
    {}

    method Release(count: nat)
      requires count <= slots
      modifies this`slots
      ensures slots == old(slots) - count
    {
      for i := 0 to count
        invariant slots == old(slots) - i
      {
        slots := slots - 1;
      }
    }

    /** Collection is over: what is not held waits, pushed back or in the channel. */
    ghost predicate Stopped(held: seq<Submission>)
      reads this
    {
      && slots == |Waiting()| + |held| <= maxRequests
      && accepted == delivered + held + Waiting()
      && AllWellSized(mode, held) && AllWellSized(mode, Waiting())
    }

    /** One turn of the collection loop: receive, push back, or find nothing. */
    method ReceiveNext(ghost held: seq<Submission>, maxBytes: int, bytes: int) returns (next: Option<Submission>)
      requires Holding(held) && |held| > 0
      modifies this`items, this`pending
      ensures next.Some? ==> Holding(held + [next.value]) && FitsLimit(maxBytes, bytes + next.value.appendByteSize)
      ensures next.Some? ==> BatchSize(mode, held + [next.value]) == BatchSize(mode, held) + next.value.appendByteSize
      ensures next.Some? ==> |held| < maxRequests
      ensures next.None? ==> Stopped(held)
      ensures next.None? && pending.Some? ==> !FitsLimit(maxBytes, bytes + pending.value.appendByteSize)
      ensures next.None? && pending.None? ==> items == []
    {
      hide WellSized, BatchSize;
      if |items| == 0 {
        return None;
      }
      var received := items[0];
      assert items == [received] + items[1..];
      assert delivered + held + items == delivered + (held + [received]) + items[1..];
      SizeAfterAppend(mode, held, received);
      items := items[1..];
      if maxBytes > 0 && bytes + received.appendByteSize > maxBytes {
        pending := Some(received);
        return None;
      }
      return Some(received);
    }

    method HandOver(ghost held: seq<Submission>, count: nat)
      requires (Holding(held) || Stopped(held)) && count == |held|
      modifies this`slots, this`delivered
      ensures Valid() && delivered == old(delivered) + held
    {
      hide WellSized;
      assert delivered + held + Waiting() == (delivered + held) + Waiting();
      Release(count);
      delivered := delivered + held;
    }

    lemma StartSize(first: Submission)
      requires AllWellSized(mode, [first])
      ensures BatchSize(mode, [first]) == first.standaloneByteSize
    {
      assert [first][0] == first;
      assert [] + [first] == [first];
      SizeAfterAppend(mode, [], first);
      hide BatchSize;
    }

    /** What the loop has gathered so far, starting with `first`. */
    ghost predicate Collected(first: Submission, maxBytes: int, submissions: seq<Submission>, bytes: int)
      reads this
    {
      && Holding(submissions)
      && 1 <= |submissions| <= maxRequests && submissions[0] == first
      && bytes == BatchSize(mode, submissions) && FitsLimit(maxBytes, bytes)
    }

    lemma CollectedMeans(first: Submission, maxBytes: int, submissions: seq<Submission>, bytes: int)
      requires Collected(first, maxBytes, submissions, bytes)
      ensures Holding(submissions)
      ensures 1 <= |submissions| <= maxRequests && submissions[0] == first
      ensures bytes == BatchSize(mode, submissions) && FitsLimit(maxBytes, bytes)
    {}

    lemma CollectedOneMore(first: Submission, maxBytes: int, submissions: seq<Submission>, bytes: int,
                           next: Submission)
      requires 1 <= |submissions| < maxRequests && submissions[0] == first
      requires bytes == BatchSize(mode, submissions)
      requires Holding(submissions + [next]) && FitsLimit(maxBytes, bytes + next.appendByteSize)
      requires BatchSize(mode, submissions + [next]) == BatchSize(mode, submissions) + next.appendByteSize
      ensures Collected(first, maxBytes, submissions + [next], bytes + next.appendByteSize)
    {
      hide BatchSize, Holding, FitsLimit;
    }

    /** The collection loop. It stops although producers never do, because collected
        submissions keep their tokens. */
    method Gather(first: Submission, maxBytes: int, eager: nat -> seq<Submission>)
      returns (submissions: seq<Submission>, bytes: int)
      requires Collected(first, maxBytes, [first], first.standaloneByteSize)
      requires forall k :: AllWellSized(mode, eager(k))
      modifies this`items, this`slots, this`pending, this`accepted
      ensures Stopped(submissions)
      ensures 1 <= |submissions| <= maxRequests && submissions[0] == first
      ensures bytes == BatchSize(mode, submissions) && FitsLimit(maxBytes, bytes)
      ensures pending.Some? ==> !FitsLimit(maxBytes, bytes + pending.value.appendByteSize)
      ensures pending.None? ==> items == []
    {
      submissions, bytes := [first], first.standaloneByteSize;
      hide *;
      var k := 0;
      while true
        invariant Collected(first, maxBytes, submissions, bytes)
        decreases maxRequests - |submissions|
      {
        CollectedMeans(first, maxBytes, submissions, bytes);
        ProducersWrite(eager(k), submissions);
        k := k + 1;
        var next := ReceiveNext(submissions, maxBytes, bytes);
        if next.None? {
          break;
        }
        CollectedOneMore(first, maxBytes, submissions, bytes, next.value);
        submissions := submissions + [next.value];
        bytes := bytes + next.value.appendByteSize;
      }
    }

    /** Gathers what is waiting, with `eager(k)` arriving before the k-th receive. */
    method CollectBatch(first: Submission, maxBytes: int, eager: nat -> seq<Submission>)
      returns (submissions: seq<Submission>, bytes: int)
      requires Holding([first])
      requires forall k :: AllWellSized(mode, eager(k))
      modifies this
      ensures Valid() && closed == old(closed)
      ensures 1 <= |submissions| <= maxRequests && submissions[0] == first
      ensures delivered == old(delivered) + submissions
      ensures bytes == BatchSize(mode, submissions)
      ensures |submissions| > 1 ==> FitsLimit(maxBytes, bytes)
      ensures pending.Some? ==> !FitsLimit(maxBytes, bytes + pending.value.appendByteSize)
      ensures pending.None? ==> items == [] || (maxBytes > 0 && bytes >= maxBytes && |submissions| == 1)
    {
      submissions := [first];
      bytes := first.standaloneByteSize;
      StartSize(first);
      assert maxRequests >= 1 && pending.None?;
      hide WellSized, BatchSize, AllWellSized, Holding, Stopped, Valid;
      if maxBytes > 0 && bytes >= maxBytes {
        HandOver(submissions, 1);
        return;
      }
      submissions, bytes := Gather(first, maxBytes, eager);
      HandOver(submissions, |submissions|);
    }
  }

  /** What `sendRecords` comes to for a caller: exactly one error, and the queue as it was, or
      one more accepted submission, with its real sizes, that fits a batch. */
  method Send(q: RequestQueue, batchBytes: int, valid: Encoding.Record -> bool, isClosed: bool, id: nat,
              records: seq<Encoding.Record>, hasCallback: bool)
    returns (r: Result<Submission, SendError>)
    requires q.Valid()
    modifies q
    ensures q.Valid() && q.delivered == old(q.delivered) && q.closed == old(q.closed)
    ensures r.Ok? <==>
              && |records| > 0
              && (forall i :: 0 <= i < |records| ==> valid(records[i]))
              && FitsLimit(batchBytes, |Encoding.Body(q.mode, records)|)
              && !isClosed && !old(q.closed) && old(q.slots) < q.maxRequests
    ensures r.Ok? ==>
              && q.accepted == old(q.accepted) + [r.value]
              && r.value.id == id && r.value.records == records && r.value.hasCallback == hasCallback
              && WellSized(q.mode, r.value) && FitsLimit(batchBytes, r.value.standaloneByteSize)
    ensures r.Err? ==> q.accepted == old(q.accepted)
    ensures r == Err(ClientClosed) ==> isClosed || old(q.closed)
    ensures r == Err(QueueFull) ==> !old(q.closed) && old(q.slots) == q.maxRequests
  {
    r := SendRecords(q.mode, batchBytes, valid, isClosed, id, records, hasCallback);
    hide WellSized, FitsLimit, Encoding.Body;
    if r.Ok? {
      var err := q.Enqueue(r.value);
      if err.Some? {
        r := Err(err.value);
      }
    }
  }
}
