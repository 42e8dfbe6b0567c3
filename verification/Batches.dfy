/** The open outbound batch and the batcher's two closures that fill and seal it,
    proved against the packing fold. */
module Batches {
  import opened Seqs
  import opened Encoding
  import opened Submissions
  import opened Packing

  class DeliveryBatch {
    const cfgMode: Mode
    var mode: Option<Mode>
    var items: seq<Record>  // payloads; the handle the items of a submission share is in `Pipeline`
    var byteSize: int
    var createdAt: int
    var hasCallback: bool
    var submissions: seq<Submission>
    var csvRows: seq<Record>
    var jsonRecords: seq<Record>
    /** `byteSize` is the length of the body that would be sent, in both modes. A batch
        with no items has no mode and size zero. */
    ghost predicate Valid()
      reads this
    {
      && mode == (if |items| == 0 then None else Some(cfgMode))
      && csvRows == (if cfgMode.CSV? then items else [])
      && jsonRecords == (if cfgMode.JSON? then items else [])
      && byteSize == (if |items| == 0 then 0 else |Body(cfgMode, items)|)
      && hasCallback == AnyCallback(submissions)
    }

    constructor (cfgMode: Mode)
      ensures Valid() && items == [] && submissions == [] && this.cfgMode == cfgMode
    {
      this.cfgMode := cfgMode;
      mode, items, byteSize, createdAt := None, [], 0, 0;
      hasCallback, submissions, csvRows, jsonRecords := false, [], [], [];
    }

    method AddSubmission(submission: Submission)
      requires Valid()
      modifies this`hasCallback, this`submissions
      ensures Valid()
      ensures submissions == old(submissions) + [submission]
    {
      if submission.hasCallback {
        hasCallback := true;
      }
      submissions := submissions + [submission];
      assert submissions[|submissions| - 1] == submission;
      assert forall i :: 0 <= i < |old(submissions)| ==> submissions[i] == old(submissions)[i];
    }

    method Add(item: Record, now: int)
      requires Valid()
      modifies this`mode, this`items, this`byteSize, this`createdAt, this`csvRows, this`jsonRecords
      ensures Valid()
      ensures items == old(items) + [item]
      ensures createdAt == if |old(items)| == 0 then now else old(createdAt)
      ensures byteSize == |Body(cfgMode, old(items) + [item])|
    {
      BodyOfOneMore(cfgMode, items, item);
      hide Body, AnyCallback;
      if |items| == 0 {
        mode := Some(cfgMode);
        createdAt := now;
      }
      items := items + [item];
      match cfgMode {
        case CSV =>
          if |csvRows| > 0 {
            byteSize := byteSize + 1;
          }
          byteSize := byteSize + |item|;
          csvRows := csvRows + [item];
        case JSON =>
          if |jsonRecords| == 0 {
            byteSize := 2 + |item|;
          } else {
            byteSize := byteSize + 1 + |item|;
          }
          jsonRecords := jsonRecords + [item];
      }
    }

    /** Predicts exactly what `Add` makes of the batch, and with no item recomputes the
        size of the body as it is. */
    method EstimatedByteSizeWith(item: Option<Record>) returns (size: int)
      requires Valid()
      ensures item.Some? ==> size == |Body(cfgMode, items + [item.value])|
      ensures item.None? ==> size == |Body(cfgMode, items)|
    {
      match cfgMode {
        case CSV =>
          size := byteSize;
          if |csvRows| == 0 {
            size := 0;
          }
          if item.Some? {
            var payload := item.value;
            BodyOfOneMore(CSV, csvRows, payload);
            if |csvRows| > 0 {
              size := size + 1;
            }
            size := size + |payload|;
          }
          if item.None? {
            size := JoinCSVRowsByteSize(csvRows);
          }
        case JSON =>
          var all := jsonRecords;
          if item.Some? {
            all := all + [item.value];
          }
          size := JoinJSONRecordsByteSize(all);
      }
    }

    /** Encoding fails only for a batch that never got an item. */
    method EncodeBody() returns (r: Result<Record, ()>)
      requires Valid()
      ensures r == if |items| == 0 then Err(()) else Ok(Body(cfgMode, items))
      ensures r.Ok? ==> |r.value| == byteSize
    {
      match mode {
        case None =>
          return Err(());
        case Some(CSV) =>
          return Ok(Join(csvRows, NEWLINE));
        case Some(JSON) =>
          var body := BuildJSONBody(jsonRecords);
          return Ok(body);
      }
    }
  }

  /** The batcher goroutine's local state: the open batch and what it has dispatched. */
  class Batcher {
    const mode: Mode
    const batchBytes: int
    var current: DeliveryBatch?
    var dispatched: seq<DeliveryBatch>
    ghost var sealed: seq<seq<Submission>>

    ghost predicate Sound(b: DeliveryBatch)
      reads b
    {
      && b.Valid() && b.cfgMode == mode
      && b.items == RecordsOf(b.submissions)
      && AllWellSized(mode, b.submissions)
      && b.byteSize == BatchSize(mode, b.submissions)
    }

    ghost predicate Valid()
      reads this, current, dispatched
    {
      && |sealed| == |dispatched|
      && (forall k :: 0 <= k < |dispatched| ==>
            Sound(dispatched[k]) && dispatched[k] != current && dispatched[k].submissions == sealed[k])
      && (current != null ==> Sound(current) && |current.submissions| > 0)
    }

    ghost function Packed(): Packer
      reads this, current
    {
      Packer(sealed, if current == null then [] else current.submissions)
    }

    constructor (mode: Mode, batchBytes: int)
      ensures Valid() && Packed() == EMPTY && this.mode == mode && this.batchBytes == batchBytes
    {
      this.mode, this.batchBytes := mode, batchBytes;
      current, dispatched, sealed := null, [], [];
    }

    method Flush()
      requires Valid()
      modifies this
      ensures Valid() && current == null
      ensures Packed() == Seal(old(Packed()))
      ensures dispatched == if old(current) == null then old(dispatched) else old(dispatched) + [old(current)]
    {
      if current == null {
        return;
      }
      dispatched := dispatched + [current];
      sealed := sealed + [current.submissions];
      current := null;
    }

    /** Fills a batch with one submission; every item lands in the same batch. */
    method Fill(batch: DeliveryBatch, submission: Submission, now: int)
      requires WellSized(mode, submission)
      requires Sound(batch)
      modifies batch
      ensures Sound(batch)
      ensures batch.submissions == old(batch.submissions) + [submission]
      ensures batch.items == old(batch.items) + submission.records
    {
      batch.AddSubmission(submission);
      AddItems(batch, submission, now);
      FilledSize(batch, old(batch.submissions), submission);
    }

    method AddItems(batch: DeliveryBatch, submission: Submission, now: int)
      requires batch.Valid()
      modifies batch
      ensures batch.Valid()
      ensures batch.submissions == old(batch.submissions)
      ensures batch.items == old(batch.items) + submission.records
    {
      hide *;
      var records := submission.records;
      for i := 0 to |records|
        invariant batch.Valid()
        invariant batch.submissions == old(batch.submissions)
        invariant batch.items == old(batch.items) + records[..i]
      {
        batch.Add(records[i], now);
      }
      assert records[..|records|] == records;
    }

    /** The incremental size agrees with the size of the submissions' records. */
    lemma FilledSize(batch: DeliveryBatch, subs: seq<Submission>, submission: Submission)
      requires batch.Valid() && batch.cfgMode == mode
      requires AllWellSized(mode, subs) && WellSized(mode, submission)
      requires batch.submissions == subs + [submission]
      requires batch.items == RecordsOf(subs) + submission.records
      ensures Sound(batch)
    {
      assert AllWellSized(mode, batch.submissions);
      RecordsNonEmpty(mode, batch.submissions);
      RecordsAppend(subs, submission);
    }

    method Place(submission: Submission, now: int)
      requires Valid() && WellSized(mode, submission)
      modifies this`current, current
      ensures Valid() && current != null
      ensures current.byteSize == BatchSize(mode, Packed().open)
      ensures Packed() == old(Packed()).(open := old(Packed()).open + [submission])
    {
      assert RecordsOf([]) == [];
      hide Body, RecordsOf, WellSized, AnyCallback;
      var batch := current;
      if batch == null {
        batch := new DeliveryBatch(mode);
      }
      Fill(batch, submission, now);
      current := batch;
    }

    method AddSubmission(submission: Submission, now: int)
      requires Valid() && WellSized(mode, submission)
      modifies this, current
      ensures Valid()
      ensures Packed() == Packing.AddSubmission(mode, batchBytes, old(Packed()), submission)
    {
      ghost var before := Packed();
      assert current != null ==> current.byteSize == BatchSize(mode, before.open) && |before.open| > 0;
      hide Valid, BatchSize, WellSized;
      if current != null && batchBytes > 0 && current.byteSize + submission.appendByteSize > batchBytes {
        Flush();
      }
      ghost var ready := Packed();
      assert ready == if MustFlushFirst(mode, batchBytes, before.open, submission) then Seal(before) else before;
      Place(submission, now);
      ghost var added := Packed();
      if batchBytes > 0 && current.byteSize >= batchBytes {
        Flush();
      }
      assert Packed() == if IsFull(mode, batchBytes, added.open) then Seal(added) else added;
    }
  }
}
