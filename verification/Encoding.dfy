/** The request body of one outbound batch: how records are joined, and the
    size arithmetic the client keeps beside it. */
module Encoding {
  import opened Seqs

  newtype byte = x: int | 0 <= x < 256
  type Record = seq<byte>

  datatype Mode = CSV | JSON

  const NEWLINE: byte := 10
  const COMMA: byte := 44
  const OPEN_BRACKET: byte := 91
  const CLOSE_BRACKET: byte := 93

  function Join(records: seq<Record>, separator: byte): Record {
    if |records| == 0 then []
    else if |records| == 1 then records[0]
    else Join(records[..|records| - 1], separator) + [separator] + records[|records| - 1]
  }

  /** The body Doris receives for `records`. */
  function Body(mode: Mode, records: seq<Record>): Record {
    match mode
    case CSV => Join(records, NEWLINE)
    case JSON => [OPEN_BRACKET] + Join(records, COMMA) + [CLOSE_BRACKET]
  }

  function Length(record: Record): int {
    |record|
  }

  function PayloadBytes(records: seq<Record>): int {
    SumBy(Length, records)
  }

  lemma {:induction false} JoinLength(records: seq<Record>, separator: byte)
    ensures |Join(records, separator)| == PayloadBytes(records) + Max(0, |records| - 1)
  {
    if |records| == 1 {
      SumAppend(Length, [], records[0]);
      assert [] + [records[0]] == records;
    } else if |records| > 1 {
      JoinLength(records[..|records| - 1], separator);
    }
  }

  lemma {:induction false} PayloadSplit(xs: seq<Record>, ys: seq<Record>)
    ensures PayloadBytes(xs + ys) == PayloadBytes(xs) + PayloadBytes(ys)
  {
    if |ys| == 0 {
      assert xs + ys == xs;
    } else {
      var front, last := ys[..|ys| - 1], ys[|ys| - 1];
      PayloadSplit(xs, front);
      assert xs + ys == (xs + front) + [last];
      SumAppend(Length, xs + front, last);
    }
  }

  lemma {:induction false} PayloadNonNegative(records: seq<Record>)
    ensures PayloadBytes(records) >= 0
  {
    SumAtLeast(Length, records);
  }

  /** Standalone size of a body: separators between records, brackets around JSON. */
  lemma BodyLength(mode: Mode, records: seq<Record>)
    ensures |Body(mode, records)| == PayloadBytes(records) + Max(0, |records| - 1) + (if mode.JSON? then 2 else 0)
  {
    JoinLength(records, NEWLINE);
    JoinLength(records, COMMA);
  }

  /** Appending to a non-empty body costs one separator a record, in both modes. */
  lemma BodyGrowth(mode: Mode, open: seq<Record>, more: seq<Record>)
    requires |open| > 0
    ensures |Body(mode, open + more)| == |Body(mode, open)| + PayloadBytes(more) + |more|
  {
    BodyLength(mode, open);
    BodyLength(mode, open + more);
    PayloadSplit(open, more);
  }

  lemma BodyOfOneMore(mode: Mode, open: seq<Record>, record: Record)
    ensures |Body(mode, open + [record])| ==
            if |open| > 0 then |Body(mode, open)| + 1 + |record|
            else if mode.JSON? then 2 + |record| else |record|
  {
    BodyLength(mode, open);
    BodyLength(mode, open + [record]);
    SumAppend(Length, open, record);
  }

  /** Offset of the i-th record inside the body. */
  function Offset(mode: Mode, records: seq<Record>, i: nat): int
    requires i < |records|
  {
    PayloadBytes(records[..i]) + i + (if mode.JSON? then 1 else 0)
  }

  lemma {:induction false} JoinHolds(records: seq<Record>, separator: byte, i: nat)
    requires i < |records|
    ensures 0 <= PayloadBytes(records[..i]) + i
    ensures PayloadBytes(records[..i]) + i + |records[i]| <= |Join(records, separator)|
    ensures var at := PayloadBytes(records[..i]) + i;
            Join(records, separator)[at..at + |records[i]|] == records[i]
  {
    var n := |records| - 1;
    var front := records[..n];
    PayloadNonNegative(records[..i]);
    JoinLength(front, separator);
    if i < n {
      JoinHolds(front, separator, i);
      assert front[..i] == records[..i];
      var at := PayloadBytes(records[..i]) + i;
      assert Join(records, separator)[at..at + |records[i]|] == Join(front, separator)[at..at + |records[i]|];
    } else if n == 0 {
      assert records[..0] == [];
    }
  }

  /** Every record lies whole and unbroken in the body, at increasing offsets with
      exactly one separator byte between neighbours. */
  lemma RecordsLieWholeInBody(mode: Mode, records: seq<Record>, i: nat)
    requires i < |records|
    ensures 0 <= Offset(mode, records, i)
    ensures Offset(mode, records, i) + |records[i]| <= |Body(mode, records)|
    ensures Body(mode, records)[Offset(mode, records, i)..Offset(mode, records, i) + |records[i]|] == records[i]
    ensures i + 1 < |records| ==> Offset(mode, records, i + 1) == Offset(mode, records, i) + |records[i]| + 1
  {
    var separator := if mode.CSV? then NEWLINE else COMMA;
    JoinHolds(records, separator, i);
    var at := PayloadBytes(records[..i]) + i;
    if mode.JSON? {
      assert Body(mode, records)[at + 1..at + 1 + |records[i]|] == Join(records, COMMA)[at..at + |records[i]|];
    }
    if i + 1 < |records| {
      assert records[..i + 1] == records[..i] + [records[i]];
      SumAppend(Length, records[..i], records[i]);
    }
  }

  /** The byte between two records: a line feed (10) in CSV, a comma (44) in JSON. */
  lemma SeparatorByte(mode: Mode, records: seq<Record>, i: nat)
    requires i + 1 < |records|
    ensures 0 < Offset(mode, records, i + 1) <= |Body(mode, records)|
    ensures Body(mode, records)[Offset(mode, records, i + 1) - 1] == if mode.CSV? then 10 else 44
  {
    SeparatorAt(records, if mode.CSV? then NEWLINE else COMMA, i);
  }

  /** A JSON body is one array: square brackets (91 and 93) around the records, also around
      none; a CSV body has nothing around its rows. */
  lemma BodyEnds(records: seq<Record>)
    ensures |Body(JSON, records)| >= 2
    ensures Body(JSON, records)[0] == 91 && Body(JSON, records)[|Body(JSON, records)| - 1] == 93
    ensures Body(JSON, []) == [91, 93] && Body(CSV, []) == []
    ensures |records| == 1 ==> Body(CSV, records) == records[0] && Body(JSON, records) == [91] + records[0] + [93]
  {}

  lemma {:induction false} SeparatorAt(records: seq<Record>, separator: byte, i: nat)
    requires i + 1 < |records|
    ensures 0 <= PayloadBytes(records[..i + 1]) + i < |Join(records, separator)|
    ensures Join(records, separator)[PayloadBytes(records[..i + 1]) + i] == separator
  {
    var n := |records| - 1;
    var front := records[..n];
    JoinLength(front, separator);
    PayloadNonNegative(records[..i + 1]);
    if i + 1 < n {
      SeparatorAt(front, separator, i);
      assert front[..i + 1] == records[..i + 1];
    } else {
      assert front == records[..i + 1];
    }
  }

  /** Reading a body back: the pieces between separator bytes. */
  function SplitAt(body: Record, separator: byte): seq<Record> {
    if |body| == 0 then [[]]
    else
      var before, last := SplitAt(body[..|body| - 1], separator), body[|body| - 1];
      if last == separator then before + [[]]
      else before[..|before| - 1] + [before[|before| - 1] + [last]]
  }

  lemma SplitOneMore(body: Record, b: byte, separator: byte)
    ensures |SplitAt(body, separator)| > 0
    ensures var before := SplitAt(body, separator);
            b != separator ==> SplitAt(body + [b], separator) == before[..|before| - 1] + [before[|before| - 1] + [b]]
  {
    SplitNonEmpty(body, separator);
    assert (body + [b])[..|body|] == body;
  }

  lemma {:induction false} SplitAppend(body: Record, piece: Record, separator: byte)
    requires separator !in piece
    ensures |SplitAt(body, separator)| > 0
    ensures var before := SplitAt(body, separator);
            SplitAt(body + piece, separator) == before[..|before| - 1] + [before[|before| - 1] + piece]
  {
    SplitNonEmpty(body, separator);
    hide SplitAt;
    var before := SplitAt(body, separator);
    var n := |before| - 1;
    if |piece| == 0 {
      assert body + piece == body && before[n] + piece == before[n] && before == before[..n] + [before[n]];
    } else {
      var front, last := piece[..|piece| - 1], piece[|piece| - 1];
      SplitAppend(body, front, separator);
      SplitOneMore(body + front, last, separator);
      assert body + piece == (body + front) + [last] && (before[n] + front) + [last] == before[n] + piece;
      assert (before[..n] + [before[n] + front])[..n] == before[..n];
    }
  }

  lemma {:induction false} SplitNonEmpty(body: Record, separator: byte)
    ensures |SplitAt(body, separator)| > 0
  {
    if |body| == 0 {
      assert SplitAt(body, separator) == [[]];
    } else {
      SplitNonEmpty(body[..|body| - 1], separator);
    }
  }

  lemma {:induction false} JoinSplits(records: seq<Record>, separator: byte)
    requires |records| > 0 && forall i :: 0 <= i < |records| ==> separator !in records[i]
    ensures SplitAt(Join(records, separator), separator) == records
  {
    var front, last := records[..|records| - 1], records[|records| - 1];
    if |front| == 0 {
      SplitAppend([], last, separator);
      assert [] + last == last && records == [last];
      assert SplitAt([], separator) == [[]];
    } else {
      JoinSplits(front, separator);
      var body := Join(front, separator) + [separator];
      assert body[..|body| - 1] == Join(front, separator);
      assert SplitAt(body, separator) == front + [[]];
      SplitAppend(body, last, separator);
      assert Join(records, separator) == body + last;
      assert (front + [[]])[..|front|] == front && [] + last == last;
      assert records == front + [last];
    }
  }

  /** Round trip: cutting the body at line feeds (CSV), or what the brackets hold at commas
      (JSON), gives the records back, if none of them contains that byte. */
  lemma BodySplits(mode: Mode, records: seq<Record>)
    requires |records| > 0
    requires forall i :: 0 <= i < |records| ==> (if mode.CSV? then 10 else 44) !in records[i]
    ensures mode.CSV? ==> SplitAt(Body(mode, records), 10) == records
    ensures mode.JSON? ==>
              |Body(mode, records)| >= 2
              && SplitAt(Body(mode, records)[1..|Body(mode, records)| - 1], 44) == records
  {
    if mode.CSV? {
      JoinSplits(records, 10);
    } else {
      JoinSplits(records, 44);
      assert Body(mode, records)[1..|Body(mode, records)| - 1] == Join(records, 44);
    }
  }

  method JoinCSVRowsByteSize(rows: seq<Record>) returns (size: int)
    ensures size == |Body(CSV, rows)|
  {
    if |rows| == 0 {
      return 0;
    }
    size := 0;
    for i := 0 to |rows|
      invariant size == PayloadBytes(rows[..i]) + Max(0, i - 1)
    {
      assert rows[..i + 1] == rows[..i] + [rows[i]];
      SumAppend(Length, rows[..i], rows[i]);
      if i > 0 {
        size := size + 1;
      }
      size := size + |rows[i]|;
    }
    assert rows[..|rows|] == rows;
    BodyLength(CSV, rows);
  }

  method JoinJSONRecordsByteSize(records: seq<Record>) returns (size: int)
    ensures size == |Body(JSON, records)|
  {
    BodyLength(JSON, records);
    if |records| == 0 {
      return 2;
    }
    size := 2;
    for i := 0 to |records|
      invariant size == 2 + PayloadBytes(records[..i]) + Max(0, i - 1)
    {
      assert records[..i + 1] == records[..i] + [records[i]];
      SumAppend(Length, records[..i], records[i]);
      if i > 0 {
        size := size + 1;
      }
      size := size + |records[i]|;
    }
    assert records[..|records|] == records;
  }

  /** The builder loop that writes a JSON body produces `Body(JSON, records)`. */
  method BuildJSONBody(records: seq<Record>) returns (body: Record)
    ensures body == Body(JSON, records)
  {
    body := [OPEN_BRACKET];
    for i := 0 to |records|
      invariant body == [OPEN_BRACKET] + Join(records[..i], COMMA)
    {
      assert records[..i + 1][..i] == records[..i];
      if i > 0 {
        body := body + [COMMA];
      }
      body := body + records[i];
    }
    assert records[..|records|] == records;
    body := body + [CLOSE_BRACKET];
  }
}
