/** Handles and shared completions: attach, Done with its bridge goroutine, complete, and
    readers, interleaved at every lock section and channel operation. */
module Handles {
  import opened Seqs
  import opened DeliveryLoops

  /** A batch's completion. `dispatched`: the batch has left the batcher, which attaches
      handles, for the workers, which complete. `doneCloses` counts executions of
      close(done), which must stay below two. */
  datatype Completion = Completion(dispatched: bool, result: Option<DeliveryResult>, doneCloses: nat)

  /** The goroutine that turns a completion's done into the handle's done. */
  datatype Bridge = Waiting | Looking | Watching(c: nat) | Closing(c: nat) | Finished

  /** `closing`: attach calls between the lock section and close(assigned). */
  datatype Handle = Handle(
    completion: Option<nat>,
    closing: nat,
    assignedCloses: nat,
    doneMade: bool,
    bridged: bool,
    doneCloses: nat,
    bridges: seq<Bridge>)

  datatype Call = ResultCall | WaitCall | WaitContextCall

  /** Where a Result, Wait or WaitContext call stands. */
  datatype Reader =
    | Entered(h: nat, call: Call)
    | SawAssigned(h: nat, call: Call)
    | Holding(h: nat, call: Call, c: nat)
    | Left

  /** What a call came back with: a result, or none. `sawAssigned`: it had seen the handle
      assigned. */
  datatype Answer = Answer(h: nat, call: Call, sawAssigned: bool, result: Option<DeliveryResult>)

  /** `returned`: every answer a reader has got, in order. */
  datatype Board = Board(
    completions: seq<Completion>,
    handles: seq<Handle>,
    readers: seq<Reader>,
    returned: seq<Answer>)

  datatype Event =
    | NewCompletion
    | NewHandle
    | Attach(h: nat, c: nat)
    | CloseAssigned(h: nat)
    | Done(h: nat)
    | BridgeStep(h: nat, b: nat)
    | Dispatch(c: nat)
    | Complete(c: nat, result: DeliveryResult)
    | Read(h: nat, call: Call)
    | SeeAssigned(k: nat)
    | NotAssigned(k: nat)
    | LoadCompletion(k: nat)
    | SeeDone(k: nat)
    | NotDone(k: nat)
    | ContextEnds(k: nat)

  const FRESH_HANDLE := Handle(None, 0, 0, false, false, 0, [])

  predicate Enabled(s: Board, e: Event) {
    match e
    case NewCompletion => true
    case NewHandle => true
    case Attach(h, c) => h < |s.handles| && c < |s.completions| && !s.completions[c].dispatched
    case CloseAssigned(h) => h < |s.handles| && s.handles[h].closing > 0
    case Done(h) => h < |s.handles|
    case BridgeStep(h, b) =>
      && h < |s.handles| && b < |s.handles[h].bridges|
      && (match s.handles[h].bridges[b]
          case Waiting => s.handles[h].assignedCloses > 0
          case Looking => s.handles[h].completion.Some?
          case Watching(c) => c < |s.completions| && s.completions[c].doneCloses > 0
          case Closing(_) => true
          case Finished => false)
    case Dispatch(c) =>
      // one goroutine attaches, closes assigned and only then sends the batch on
      && c < |s.completions|
      && (forall h :: 0 <= h < |s.handles| && s.handles[h].completion == Some(c) ==> s.handles[h].closing == 0)
    case Complete(c, _) => c < |s.completions| && s.completions[c].dispatched
    case Read(h, _) => h < |s.handles|
    case SeeAssigned(k) => k < |s.readers| && s.readers[k].Entered? && AssignedClosed(s, s.readers[k].h)
    case NotAssigned(k) =>
      // only Result has a default branch
      && k < |s.readers| && s.readers[k].Entered? && s.readers[k].call.ResultCall?
      && !AssignedClosed(s, s.readers[k].h)
    case LoadCompletion(k) => k < |s.readers| && s.readers[k].SawAssigned?
    case SeeDone(k) => k < |s.readers| && s.readers[k].Holding? && DoneClosed(s, s.readers[k].c)
    case NotDone(k) =>
      && k < |s.readers| && s.readers[k].Holding? && s.readers[k].call.ResultCall?
      && !DoneClosed(s, s.readers[k].c)
    case ContextEnds(k) =>
      && k < |s.readers| && (s.readers[k].Entered? || s.readers[k].Holding?)
      && s.readers[k].call.WaitContextCall?
  }

  predicate DoneClosed(s: Board, c: nat) {
    c < |s.completions| && s.completions[c].doneCloses > 0
  }

  predicate AssignedClosed(s: Board, h: nat) {
    h < |s.handles| && s.handles[h].assignedCloses > 0
  }

  /** startDoneBridgeLocked, inside the handle's lock. */
  function StartBridge(h: Handle): Handle {
    if !h.doneMade || h.bridged then h
    else h.(bridged := true, bridges := h.bridges + [Waiting])
  }

  function AttachLocked(h: Handle, c: nat): Handle {
    if h.completion.Some? then h
    else StartBridge(h.(completion := Some(c))).(closing := h.closing + 1)
  }

  function DoneLocked(h: Handle): Handle {
    if h.doneMade then h else StartBridge(h.(doneMade := true))
  }

  /** One step of bridge `b`; Looking reads the completion under the lock. */
  function MoveBridge(h: Handle, b: nat): Handle
    requires b < |h.bridges|
  {
    match h.bridges[b]
    case Waiting => h.(bridges := h.bridges[b := Looking])
    case Looking =>
      (match h.completion
       case Some(c) => h.(bridges := h.bridges[b := Watching(c)])
       case None => h)
    case Watching(c) => h.(bridges := h.bridges[b := Closing(c)])
    case Closing(c) => h.(bridges := h.bridges[b := Finished], doneCloses := h.doneCloses + 1)
    case Finished => h
  }

  function CompleteLocked(c: Completion, result: DeliveryResult): Completion {
    if c.result.Some? then c else c.(result := Some(result), doneCloses := c.doneCloses + 1)
  }

  /** Reader k leaves with `result`, or with none. */
  function Return(s: Board, k: nat, result: Option<DeliveryResult>): Board
    requires k < |s.readers| && !s.readers[k].Left?
  {
    var r := s.readers[k];
    s.(readers := s.readers[k := Left], returned := s.returned + [Answer(r.h, r.call, !r.Entered?, result)])
  }

  /** What a reader holding completion c finds in it. */
  function ResultOf(s: Board, c: nat): Option<DeliveryResult> {
    if c < |s.completions| then s.completions[c].result else None
  }

  function Step(s: Board, e: Event): Board
    requires Enabled(s, e)
  {
    match e
    case NewCompletion => s.(completions := s.completions + [Completion(false, None, 0)])
    case NewHandle => s.(handles := s.handles + [FRESH_HANDLE])
    case Attach(h, c) => s.(handles := s.handles[h := AttachLocked(s.handles[h], c)])
    case CloseAssigned(h) =>
      var x := s.handles[h];
      s.(handles := s.handles[h := x.(closing := x.closing - 1, assignedCloses := x.assignedCloses + 1)])
    case Done(h) => s.(handles := s.handles[h := DoneLocked(s.handles[h])])
    case BridgeStep(h, b) => s.(handles := s.handles[h := MoveBridge(s.handles[h], b)])
    case Dispatch(c) => s.(completions := s.completions[c := s.completions[c].(dispatched := true)])
    case Complete(c, result) => s.(completions := s.completions[c := CompleteLocked(s.completions[c], result)])
    case Read(h, call) => s.(readers := s.readers + [Entered(h, call)])
    case SeeAssigned(k) => s.(readers := s.readers[k := SawAssigned(s.readers[k].h, s.readers[k].call)])
    case NotAssigned(k) => Return(s, k, None)
    case LoadCompletion(k) =>
      var SawAssigned(h, call) := s.readers[k];
      if h < |s.handles| && s.handles[h].completion.Some?
      then s.(readers := s.readers[k := Holding(h, call, s.handles[h].completion.value)])
      else s // a nil completion, which `ReaderSound` rules out
    case SeeDone(k) => Return(s, k, ResultOf(s, s.readers[k].c))
    case NotDone(k) => Return(s, k, None)
    case ContextEnds(k) =>
      // past its first select the call looks at done once more
      if s.readers[k].Holding? && DoneClosed(s, s.readers[k].c) then Return(s, k, ResultOf(s, s.readers[k].c))
      else Return(s, k, None)
  }

  function Run(s: Board, events: seq<Event>): Option<Board> {
    if |events| == 0 then Some(s)
    else match Run(s, events[..|events| - 1])
      case None => None
      case Some(m) =>
        var e := events[|events| - 1];
        if Enabled(m, e) then Some(Step(m, e)) else None
  }

  const EMPTY_BOARD := Board([], [], [], [])

  // ---- what holds in every reachable state ------------------------------------------

  /** done is closed once, exactly when the result is set. */
  ghost predicate CompletionSound(c: Completion) {
    && c.doneCloses == (if c.result.Some? then 1 else 0)
    && (c.result.Some? ==> c.dispatched)
  }

  predicate IsSet(s: Board, c: nat) {
    c < |s.completions| && s.completions[c].result.Some?
  }

  ghost predicate BridgeSound(s: Board, h: Handle, b: Bridge) {
    match b
    case Waiting => true
    case Looking => h.completion.Some?
    case Watching(c) => h.completion == Some(c)
    case Closing(c) => h.completion == Some(c) && IsSet(s, c)
    case Finished => h.completion.Some? && IsSet(s, h.completion.value)
  }

  ghost predicate HandleSound(s: Board, h: Handle) {
    && (h.completion.Some? ==> h.completion.value < |s.completions|)
    && h.assignedCloses + h.closing == (if h.completion.Some? then 1 else 0)
    && h.doneMade == h.bridged
    && |h.bridges| == (if h.bridged then 1 else 0)
    && h.doneCloses == (if h.bridges == [Finished] then 1 else 0)
    && (forall b :: 0 <= b < |h.bridges| ==> BridgeSound(s, h, h.bridges[b]))
  }

  ghost predicate ReaderSound(s: Board, r: Reader) {
    match r
    case Entered(h, _) => h < |s.handles|
    case SawAssigned(h, _) => h < |s.handles| && s.handles[h].completion.Some?
    case Holding(h, _, c) => h < |s.handles| && s.handles[h].completion == Some(c)
    case Left => true
  }

  /** What a reader got is the result of the handle's completion; Wait never comes back
      without one. */
  ghost predicate ReturnSound(s: Board, got: Answer) {
    && got.h < |s.handles|
    && (got.call.WaitCall? ==> got.result.Some?)
    && (got.result.Some? ==>
          && s.handles[got.h].completion.Some?
          && ResultOf(s, s.handles[got.h].completion.value) == got.result)
  }

  predicate IsDispatched(s: Board, c: nat) {
    c < |s.completions| && s.completions[c].dispatched
  }

  /** Every handle of a dispatched batch has been assigned. */
  ghost predicate AllAssigned(s: Board) {
    forall h :: 0 <= h < |s.handles| && s.handles[h].completion.Some? ==>
      IsDispatched(s, s.handles[h].completion.value) ==> s.handles[h].closing == 0
  }

  ghost predicate Inv(s: Board) {
    && AllAssigned(s)
    && (forall c :: 0 <= c < |s.completions| ==> CompletionSound(s.completions[c]))
    && (forall h :: 0 <= h < |s.handles| ==> HandleSound(s, s.handles[h]))
    && (forall k :: 0 <= k < |s.readers| ==> ReaderSound(s, s.readers[k]))
    && (forall k :: 0 <= k < |s.returned| ==> ReturnSound(s, s.returned[k]))
  }

  /** Results and completions are never taken back. */
  ghost predicate Grows(s: Board, t: Board) {
    && |s.completions| <= |t.completions| && |s.handles| <= |t.handles|
    && (forall c :: 0 <= c < |s.completions| ==>
          s.completions[c].result.Some? ==> t.completions[c].result == s.completions[c].result)
    && (forall h :: 0 <= h < |s.handles| ==>
          s.handles[h].completion.Some? ==> t.handles[h].completion == s.handles[h].completion)
    && s.returned <= t.returned
  }

  lemma StepGrows(s: Board, e: Event)
    requires Enabled(s, e)
    ensures Grows(s, Step(s, e))
  {}

  lemma HandleStaysSound(s: Board, t: Board, h: Handle)
    requires Grows(s, t) && HandleSound(s, h)
    ensures HandleSound(t, h)
  {
    assert forall c: nat :: IsSet(s, c) ==> IsSet(t, c);
  }

  /** The handle that acts stays sound: nothing is closed twice, no second bridge starts. */
  lemma ActingHandleSound(s: Board, e: Event)
    requires Inv(s) && Enabled(s, e)
    requires e.Attach? || e.CloseAssigned? || e.Done? || e.BridgeStep?
    ensures HandleSound(s, Step(s, e).handles[e.h])
  {
    var h := s.handles[e.h];
    assert HandleSound(s, h);
    if e.BridgeStep? {
      assert BridgeSound(s, h, h.bridges[e.b]);
      assert h.bridges == [h.bridges[0]] && e.b == 0;
    }
    var bridges := Step(s, e).handles[e.h].bridges;
    assert |bridges| == 1 ==> (bridges == [Finished] <==> bridges[0] == Finished);
    assert |h.bridges| == 1 ==> (h.bridges == [Finished] <==> h.bridges[0] == Finished);
  }

  lemma StepKeepsHandles(s: Board, e: Event)
    requires Inv(s) && Enabled(s, e)
    ensures forall h :: 0 <= h < |Step(s, e).handles| ==> HandleSound(Step(s, e), Step(s, e).handles[h])
  {
    var t := Step(s, e);
    StepGrows(s, e);
    forall h | 0 <= h < |t.handles|
      ensures HandleSound(t, t.handles[h])
    {
      if (e.Attach? || e.CloseAssigned? || e.Done? || e.BridgeStep?) && e.h == h {
        ActingHandleSound(s, e);
        HandleStaysSound(s, t, t.handles[h]);
      } else if h < |s.handles| {
        HandleStaysSound(s, t, s.handles[h]);
      }
    }
  }

  lemma StepKeepsAssigned(s: Board, e: Event)
    requires Inv(s) && Enabled(s, e)
    ensures AllAssigned(Step(s, e))
  {
    var t := Step(s, e);
    forall h | 0 <= h < |t.handles| && t.handles[h].completion.Some? && IsDispatched(t, t.handles[h].completion.value)
      ensures t.handles[h].closing == 0
    {
      assert h < |s.handles| ==> HandleSound(s, s.handles[h]);
    }
  }

  lemma StepKeepsReaders(s: Board, e: Event)
    requires Inv(s) && Enabled(s, e)
    ensures forall k :: 0 <= k < |Step(s, e).readers| ==> ReaderSound(Step(s, e), Step(s, e).readers[k])
    ensures forall k :: 0 <= k < |Step(s, e).returned| ==> ReturnSound(Step(s, e), Step(s, e).returned[k])
  {
    var t := Step(s, e);
    StepGrows(s, e);
    if e.SeeDone? && DoneClosed(s, s.readers[e.k].c) {
      assert CompletionSound(s.completions[s.readers[e.k].c]);
    }
    if e.SeeAssigned? || e.LoadCompletion? || e.SeeDone? || (e.ContextEnds? && s.readers[e.k].Holding?) {
      var r := s.readers[e.k];
      assert ReaderSound(s, r);
      assert HandleSound(s, s.handles[r.h]);
    }
    assert forall k :: 0 <= k < |s.readers| ==> ReaderSound(s, s.readers[k]);
    assert forall k :: 0 <= k < |s.returned| ==> ReturnSound(s, s.returned[k]);
    hide HandleSound, AttachLocked, DoneLocked, MoveBridge, CompleteLocked;
  }

  lemma StepKeepsInv(s: Board, e: Event)
    requires Inv(s) && Enabled(s, e)
    ensures Inv(Step(s, e))
  {
    StepKeepsAssigned(s, e);
    StepKeepsHandles(s, e);
    StepKeepsReaders(s, e);
    hide AllAssigned, HandleSound, ReaderSound, ReturnSound, AttachLocked, DoneLocked, MoveBridge;
  }

  lemma {:induction false} RunKeepsInv(s: Board, events: seq<Event>)
    requires Inv(s) && Run(s, events).Some?
    ensures Inv(Run(s, events).value)
  {
    if |events| == 0 {
    } else {
      RunKeepsInv(s, events[..|events| - 1]);
      StepKeepsInv(Run(s, events[..|events| - 1]).value, events[|events| - 1]);
    }
  }

  /** Under every interleaving: no channel is closed twice, a handle's done closes only
      after its completion has a result, and at most one bridge goroutine exists. */
  lemma OneShot(events: seq<Event>, h: nat, c: nat)
    requires Run(EMPTY_BOARD, events).Some?
    ensures var s := Run(EMPTY_BOARD, events).value;
            && (c < |s.completions| ==> s.completions[c].doneCloses <= 1)
            && (h < |s.handles| ==>
                  var x := s.handles[h];
                  && x.assignedCloses <= 1 && x.doneCloses <= 1 && |x.bridges| <= 1
                  && (x.doneCloses == 1 ==> x.completion.Some? && IsSet(s, x.completion.value)))
  {
    RunKeepsInv(EMPTY_BOARD, events);
    var s := Run(EMPTY_BOARD, events).value;
    if h < |s.handles| {
      assert HandleSound(s, s.handles[h]);
      if s.handles[h].doneCloses == 1 {
        assert BridgeSound(s, s.handles[h], s.handles[h].bridges[0]);
      }
    }
    if c < |s.completions| {
      assert CompletionSound(s.completions[c]);
    }
  }

  /** Any two results returned for handles of one batch are the same. */
  lemma ReadersAgree(events: seq<Event>, i: nat, j: nat)
    requires Run(EMPTY_BOARD, events).Some?
    requires var s := Run(EMPTY_BOARD, events).value;
             && i < |s.returned| && j < |s.returned|
             && s.returned[i].result.Some? && s.returned[j].result.Some?
             && CompletionOf(s, s.returned[i].h) == CompletionOf(s, s.returned[j].h)
    ensures var s := Run(EMPTY_BOARD, events).value; s.returned[i].result == s.returned[j].result
  {
    RunKeepsInv(EMPTY_BOARD, events);
    var s := Run(EMPTY_BOARD, events).value;
    assert ReturnSound(s, s.returned[i]) && ReturnSound(s, s.returned[j]);
  }

  function CompletionOf(s: Board, h: nat): Option<nat> {
    if h < |s.handles| then s.handles[h].completion else None
  }

  // ---- once returned, always returned ------------------------------------------------

  /** The call came back with `result`, or its context ended before it saw the handle
      assigned. */
  predicate Repeats(a: Answer, result: DeliveryResult) {
    a.result == Some(result) || (a.call.WaitContextCall? && !a.sawAssigned && a.result.None?)
  }

  /** Attaching is over once a batch is dispatched. */
  lemma AttachedBefore(s: Board, e: Event, h: nat, c: nat)
    requires Inv(s) && Enabled(s, e) && IsDispatched(s, c)
    ensures IsDispatched(Step(s, e), c)
    ensures CompletionOf(Step(s, e), h) == Some(c) ==> CompletionOf(s, h) == Some(c)
  {
    hide ReaderSound, ReturnSound, AllAssigned;
    assert CompletionOf(s, h).Some? ==> HandleSound(s, s.handles[h]);
    hide HandleSound;
  }

  /** With the result there, no default branch is open on any handle of the batch. */
  lemma NextAnswerRepeats(s: Board, e: Event, c: nat, result: DeliveryResult)
    requires Inv(s) && Enabled(s, e) && ResultOf(s, c) == Some(result)
    ensures var t := Step(s, e);
            forall k :: |s.returned| <= k < |t.returned| && CompletionOf(t, t.returned[k].h) == Some(c) ==>
              Repeats(t.returned[k], result)
    ensures s.returned <= Step(s, e).returned
  {
    var t := Step(s, e);
    StepGrows(s, e);
    assert CompletionSound(s.completions[c]);
    if |t.returned| > |s.returned| {
      var reader := s.readers[e.k];
      assert ReaderSound(s, reader);
      assert t.handles == s.handles;
      if CompletionOf(s, reader.h) == Some(c) {
        assert HandleSound(s, s.handles[reader.h]);
        assert s.handles[reader.h].closing == 0;
      }
    }
  }

  lemma {:induction false} LaterAnswersRepeat(s: Board, events: seq<Event>, c: nat, result: DeliveryResult)
    requires Inv(s) && Run(s, events).Some? && ResultOf(s, c) == Some(result)
    ensures var t := Run(s, events).value;
            && Inv(t) && ResultOf(t, c) == Some(result) && s.returned <= t.returned
            && (forall k :: |s.returned| <= k < |t.returned| && CompletionOf(t, t.returned[k].h) == Some(c) ==>
                  Repeats(t.returned[k], result))
  {
    if |events| == 0 {
      assert Run(s, events).value == s;
    } else {
      var front, e := events[..|events| - 1], events[|events| - 1];
      LaterAnswersRepeat(s, front, c, result);
      var m, t := Run(s, front).value, Run(s, events).value;
      StepKeepsInv(m, e);
      StepGrows(m, e);
      NextAnswerRepeats(m, e, c, result);
      forall k | |s.returned| <= k < |t.returned| && CompletionOf(t, t.returned[k].h) == Some(c)
        ensures Repeats(t.returned[k], result)
      {
        assert CompletionSound(m.completions[c]);
        AttachedBefore(m, e, t.returned[k].h, c);
      }
    }
  }

  /** Once a call on a handle has returned result r, every Result or Wait that returns later,
      on any handle of that batch and in any continuation of the run, returns r; so does a
      WaitContext that gets past its first select. */
  lemma OnceReturnedAlwaysReturned(events: seq<Event>, later: seq<Event>, i: nat)
    requires Run(EMPTY_BOARD, events).Some? && Run(Run(EMPTY_BOARD, events).value, later).Some?
    requires i < |Run(EMPTY_BOARD, events).value.returned|
    requires Run(EMPTY_BOARD, events).value.returned[i].result.Some?
    ensures var s := Run(EMPTY_BOARD, events).value;
            var t := Run(s, later).value;
            forall k :: |s.returned| <= k < |t.returned| ==>
              CompletionOf(t, t.returned[k].h) == CompletionOf(s, s.returned[i].h) ==>
                Repeats(t.returned[k], s.returned[i].result.value)
  {
    RunKeepsInv(EMPTY_BOARD, events);
    var s := Run(EMPTY_BOARD, events).value;
    assert ReturnSound(s, s.returned[i]);
    LaterAnswersRepeat(s, later, CompletionOf(s, s.returned[i].h).value, s.returned[i].result.value);
  }

  /** A call comes back empty-handed only from the default branch of Result, with no result
      set on its handle, or from WaitContext, because its context ended. */
  lemma WhenNothingIsReturned(s: Board, e: Event)
    requires Inv(s) && Enabled(s, e) && |Step(s, e).returned| > |s.returned|
    requires Step(s, e).returned[|s.returned|].result.None?
    ensures var got := Step(s, e).returned[|s.returned|];
            || (got.call.ResultCall? && forall c :: CompletionOf(s, got.h) == Some(c) ==> !IsSet(s, c))
            || (got.call.WaitContextCall? && e.ContextEnds?)
  {
    var reader := s.readers[e.k];
    assert ReaderSound(s, reader) && HandleSound(s, s.handles[reader.h]);
    if reader.Holding? && reader.c < |s.completions| {
      assert CompletionSound(s.completions[reader.c]);
    }
    var c := CompletionOf(s, reader.h);
    if c.Some? && IsSet(s, c.value) {
      assert CompletionSound(s.completions[c.value]);
    }
  }

  /** No reader and no bridge ever meets a missing completion or an unset result. */
  lemma NothingMissing(events: seq<Event>, e: Event)
    requires Run(EMPTY_BOARD, events).Some? && Enabled(Run(EMPTY_BOARD, events).value, e)
    ensures var s := Run(EMPTY_BOARD, events).value;
            && (e.LoadCompletion? ==> Step(s, e).readers[e.k].Holding?)
            && (e.SeeDone? ==> Step(s, e).returned[|s.returned|].result.Some?)
  {
    RunKeepsInv(EMPTY_BOARD, events);
    var s := Run(EMPTY_BOARD, events).value;
    if e.LoadCompletion? {
      assert ReaderSound(s, s.readers[e.k]);
    } else if e.SeeDone? {
      assert CompletionSound(s.completions[s.readers[e.k].c]);
    }
  }

  /** A result once handed out is what every later reader of that completion gets. */
  lemma {:induction false} ResultsAreStable(s: Board, events: seq<Event>)
    requires Run(s, events).Some?
    ensures Grows(s, Run(s, events).value)
  {
    if |events| == 0 {
    } else {
      ResultsAreStable(s, events[..|events| - 1]);
      StepGrows(Run(s, events[..|events| - 1]).value, events[|events| - 1]);
    }
  }

  // ---- nothing hangs -----------------------------------------------------------------

  /** The next step of reader k once its handle's batch has its result. */
  function NextStep(r: Reader, k: nat): Event
    requires !r.Left?
  {
    match r
    case Entered(_, _) => SeeAssigned(k)
    case SawAssigned(_, _) => LoadCompletion(k)
    case Holding(_, _, _) => SeeDone(k)
  }

  function StepsToAnswer(r: Reader): nat {
    match r
    case Entered(_, _) => 3
    case SawAssigned(_, _) => 2
    case Holding(_, _, _) => 1
    case Left => 0
  }

  function StepsToClose(b: Bridge): nat {
    match b
    case Waiting => 4
    case Looking => 3
    case Watching(_) => 2
    case Closing(_) => 1
    case Finished => 0
  }

  /** Once the result is set no Result, Wait or WaitContext on its handles hangs: the call's
      next step is open, brings it one nearer its answer, and the last returns the result. */
  lemma NoReaderHangs(events: seq<Event>, k: nat, c: nat, result: DeliveryResult)
    requires Run(EMPTY_BOARD, events).Some?
    requires var s := Run(EMPTY_BOARD, events).value;
             && k < |s.readers| && !s.readers[k].Left? && CompletionOf(s, s.readers[k].h) == Some(c)
             && ResultOf(s, c) == Some(result)
    ensures var s := Run(EMPTY_BOARD, events).value;
            var e, r := NextStep(s.readers[k], k), s.readers[k];
            && Enabled(s, e)
            && StepsToAnswer(Step(s, e).readers[k]) == StepsToAnswer(r) - 1
            && Step(s, e).returned == s.returned + if r.Holding? then [Answer(r.h, r.call, true, Some(result))] else []
  {
    RunKeepsInv(EMPTY_BOARD, events);
    var s := Run(EMPTY_BOARD, events).value;
    var h := s.handles[s.readers[k].h];
    assert ReaderSound(s, s.readers[k]) && HandleSound(s, h) && CompletionSound(s.completions[c]);
    assert h.closing == 0;
    hide Run, StartBridge, MoveBridge;
  }

  /** One step of a bridge whose handle is assigned and whose batch has its result. */
  lemma BridgeMoves(s: Board, x: Handle, b: Bridge, c: nat)
    requires x.bridges == [b] && x.completion == Some(c) && IsSet(s, c) && BridgeSound(s, x, b)
    requires b != Finished && x.doneCloses == 0
    ensures var y := MoveBridge(x, 0);
            && |y.bridges| == 1 && StepsToClose(y.bridges[0]) == StepsToClose(b) - 1
            && y.doneCloses == (if StepsToClose(b) == 1 then 1 else 0)
  {}

  /** Nor does Done: its bridge goroutine, if not yet over, can take its next step, and with
      the last one the handle's done is closed. */
  lemma NoBridgeHangs(events: seq<Event>, h: nat, c: nat)
    requires Run(EMPTY_BOARD, events).Some?
    requires var s := Run(EMPTY_BOARD, events).value;
             h < |s.handles| && s.handles[h].doneMade && s.handles[h].completion == Some(c) && IsSet(s, c)
    ensures var s := Run(EMPTY_BOARD, events).value;
            && |s.handles[h].bridges| == 1
            && var b := s.handles[h].bridges[0];
               if StepsToClose(b) == 0 then s.handles[h].doneCloses == 1
               else
                 && Enabled(s, BridgeStep(h, 0))
                 && var x := Step(s, BridgeStep(h, 0)).handles[h];
                    && |x.bridges| == 1 && StepsToClose(x.bridges[0]) == StepsToClose(b) - 1
                    && x.doneCloses == (if StepsToClose(b) == 1 then 1 else 0)
  {
    RunKeepsInv(EMPTY_BOARD, events);
    var s := Run(EMPTY_BOARD, events).value;
    var x := s.handles[h];
    assert HandleSound(s, x) && CompletionSound(s.completions[c]);
    assert BridgeSound(s, x, x.bridges[0]);
    assert x.closing == 0;
    assert x.bridges == [x.bridges[0]];
    hide Run, Inv, HandleSound, CompletionSound, MoveBridge;
    if x.bridges[0] != Finished {
      BridgeMoves(s, x, x.bridges[0], c);
    }
  }

  /** A batch gets its result: it can be sent on once none of its attach calls is under way,
      then completed, and the first completion is its result. */
  lemma BatchCompletes(s: Board, c: nat, result: DeliveryResult)
    requires Inv(s) && c < |s.completions|
    ensures Enabled(s, Dispatch(c)) <==>
            forall h :: 0 <= h < |s.handles| && s.handles[h].completion == Some(c) ==> s.handles[h].closing == 0
    ensures forall h :: 0 <= h < |s.handles| && s.handles[h].closing > 0 ==> Enabled(s, CloseAssigned(h))
    ensures Enabled(s, Dispatch(c)) ==>
              var t := Step(s, Dispatch(c));
              Enabled(t, Complete(c, result))
              && ResultOf(Step(t, Complete(c, result)), c) == if IsSet(s, c) then ResultOf(s, c) else Some(result)
  {}
}
