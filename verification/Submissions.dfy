/** One accepted call of the client: its records, the two precomputed sizes, and
    the admission check in front of the intake queue. */
module Submissions {
  import opened Seqs
  import opened Encoding

  /** `id` names the call; its handle is the handle of every record in it. */
  datatype Submission = Submission(
    id: nat,
    records: seq<Record>,
    standaloneByteSize: int,
    appendByteSize: int,
    hasCallback: bool)

  datatype SendError = NoRecords | InvalidRecord(index: nat) | SendTooLarge | ClientClosed | QueueFull

  datatype Result<+T, +E> = Ok(value: T) | Err(error: E)

  /** A non-positive limit switches the byte limit off. */
  predicate FitsLimit(limit: int, size: int) {
    limit > 0 ==> size <= limit
  }

  function NewQueuedSubmission(mode: Mode, id: nat, records: seq<Record>, payloadBytes: int, hasCallback: bool):
    Submission
  {
    var count := |records|;
    if count == 0 then Submission(id, [], 0, 0, false)
    else match mode
      case CSV => Submission(id, records, payloadBytes + count - 1, payloadBytes + count, hasCallback)
      case JSON => Submission(id, records, payloadBytes + count + 1, payloadBytes + count, hasCallback)
  }

  predicate AnyCallback(subs: seq<Submission>) {
    exists i :: 0 <= i < |subs| && subs[i].hasCallback
  }

  /** The sizes stored in a submission are the ones its records really have. */
  predicate WellSized(mode: Mode, s: Submission) {
    && |s.records| > 0
    && s.standaloneByteSize == |Body(mode, s.records)|
    && s.appendByteSize == PayloadBytes(s.records) + |s.records|
  }

  lemma NewSubmissionIsWellSized(mode: Mode, id: nat, records: seq<Record>, hasCallback: bool)
    requires |records| > 0
    ensures WellSized(mode, NewQueuedSubmission(mode, id, records, PayloadBytes(records), hasCallback))
  {
    BodyLength(mode, records);
  }

  function RecordsOf(subs: seq<Submission>): seq<Record> {
    if |subs| == 0 then [] else RecordsOf(subs[..|subs| - 1]) + subs[|subs| - 1].records
  }

  lemma RecordsAppend(subs: seq<Submission>, s: Submission)
    ensures RecordsOf(subs + [s]) == RecordsOf(subs) + s.records
  {
    assert (subs + [s])[..|subs|] == subs;
  }

  lemma RecordsOne(s: Submission)
    ensures RecordsOf([s]) == s.records
  {
    assert [s][..0] == [];
  }

  /** Encoded size of a batch holding `subs`; nothing is sent for no submissions. */
  function BatchSize(mode: Mode, subs: seq<Submission>): int {
    if |subs| == 0 then 0 else |Body(mode, RecordsOf(subs))|
  }

  ghost predicate AllWellSized(mode: Mode, subs: seq<Submission>) {
    forall i :: 0 <= i < |subs| ==> WellSized(mode, subs[i])
  }

  lemma {:induction false} RecordsNonEmpty(mode: Mode, subs: seq<Submission>)
    requires AllWellSized(mode, subs) && |subs| > 0
    ensures |RecordsOf(subs)| > 0
  {
    assert WellSized(mode, subs[|subs| - 1]);
  }

  /** The two precomputed sizes are exactly what opening with, or appending, the
      submission adds to the encoded body. */
  lemma SizeAfterAppend(mode: Mode, open: seq<Submission>, s: Submission)
    requires AllWellSized(mode, open) && WellSized(mode, s)
    ensures BatchSize(mode, open + [s]) ==
            if |open| == 0 then s.standaloneByteSize else BatchSize(mode, open) + s.appendByteSize
    ensures s.appendByteSize >= 1
  {
    RecordsAppend(open, s);
    PayloadNonNegative(s.records);
    if |open| == 0 {
      assert open + [s] == [s];
      RecordsOne(s);
    } else {
      RecordsNonEmpty(mode, open);
      BodyGrowth(mode, RecordsOf(open), s.records);
    }
  }

  /** What `collectBatch` charges a first submission differs by one byte from what the
      open batch really grows by: one too few in CSV, one too many in JSON. */
  lemma StandaloneIsOneOff(mode: Mode, open: seq<Submission>, s: Submission)
    requires AllWellSized(mode, open) && WellSized(mode, s) && |open| > 0
    ensures BatchSize(mode, open + [s]) - BatchSize(mode, open) ==
            s.standaloneByteSize + (if mode.CSV? then 1 else -1)
  {
    SizeAfterAppend(mode, open, s);
    BodyLength(mode, s.records);
  }

  /** The checks `sendRecords` makes before it touches the queue. */
  method SendRecords(mode: Mode, batchBytes: int, valid: Record -> bool, isClosed: bool,
                     id: nat, records: seq<Record>, hasCallback: bool)
    returns (r: Result<Submission, SendError>)
    ensures |records| == 0 <==> r == Err(NoRecords)
    ensures r.Err? && r.error.InvalidRecord? ==>
              var i := r.error.index;
              i < |records| && !valid(records[i]) && forall j :: 0 <= j < i ==> valid(records[j])
    ensures var valids := |records| > 0 && forall i :: 0 <= i < |records| ==> valid(records[i]);
            var tooLarge := batchBytes > 0 && |Body(mode, records)| > batchBytes;
            && (r == Err(SendTooLarge) <==> valids && tooLarge)
            && (r == Err(ClientClosed) <==> valids && !tooLarge && isClosed)
            && (r.Ok? <==> valids && !tooLarge && !isClosed)
    ensures r != Err(QueueFull)
    ensures r.Ok? ==>
              && r.value.id == id && r.value.records == records && r.value.hasCallback == hasCallback
              && WellSized(mode, r.value) && FitsLimit(batchBytes, r.value.standaloneByteSize)
  {
    if |records| == 0 {
      return Err(NoRecords);
    }
    var payloadBytes := 0;
    for i := 0 to |records|
      invariant payloadBytes == PayloadBytes(records[..i])
      invariant forall j :: 0 <= j < i ==> valid(records[j])
    {
      if !valid(records[i]) {
        return Err(InvalidRecord(i));
      }
      assert records[..i + 1] == records[..i] + [records[i]];
      SumAppend(Length, records[..i], records[i]);
      payloadBytes := payloadBytes + |records[i]|;
    }
    assert records[..|records|] == records;
    var submission := NewQueuedSubmission(mode, id, records, payloadBytes, hasCallback);
    NewSubmissionIsWellSized(mode, id, records, hasCallback);
    if batchBytes > 0 && submission.standaloneByteSize > batchBytes {
      return Err(SendTooLarge);
    }
    if isClosed {
      return Err(ClientClosed);
    }
    return Ok(submission);
  }
}
