/** The delivery loop of the client: attempts, waits and the retry deadline, and the run of
    the protocol they make. */
module DeliveryLoops {
  import opened Seqs
  import opened Replies
  import opened LabelProtocol
  import opened Backoff
  import opened Worlds
  import opened Polling

  datatype DeliveryError = TimedOut | Failed(err: LoadError)

  datatype DeliveryResult = DeliveryResult(err: Option<DeliveryError>, attempts: nat, startedAt: int, finishedAt: int)

  /** What one upload attempt leads to. */
  datatype AttemptVerdict = Delivered | Fatal(err: LoadError) | Retry

  /** What the last upload was answered with. */
  function LastOutcome(env: Env, w: World): Outcome
    requires w.sends > 0
  {
    SendOutcome(env.sendReply(w.sends - 1))
  }

  /** The verdict of an attempt that leaves the world at `w`, with `polls` polls made before
      it: the upload's own answer decides, or, when that is ambiguous, the last poll's. */
  predicate Explains(env: Env, w: World, polls: nat, verdict: AttemptVerdict)
    requires w.sends > 0
  {
    match LastOutcome(env, w)
    case Accepted => verdict == Delivered && w.polls == polls
    case Rejected(err) =>
      if !err.ambiguous then w.polls == polls && verdict == (if err.retriable then Retry else Fatal(err))
      else
        w.polls > polls && Decides(env.pollReply(w.polls - 1), verdict)
  }

  /** The last poll reply of an ambiguous attempt decides: loaded, an error that is final, or
      another try, be it that the data is gone or that the poll's own error may be retried. */
  predicate Decides(last: PollReply, verdict: AttemptVerdict) {
    && (verdict.Delivered? <==> SaysVisible(last))
    && (verdict.Retry? <==> SaysGone(last) || (!IsConclusive(last) && ExpiryError(last).retriable))
    && (verdict.Fatal? ==> verdict.err == ExpiryError(last) && !verdict.err.retriable)
  }

  /** `events` take `d` to where `verdict` leaves it. */
  ghost predicate Leads(env: Env, start: World, d: Delivery, events: seq<ClientEvent>, w: World, after: Delivery,
                        verdict: AttemptVerdict)
  {
    && Traces(env, start, d, events, w, after)
    && |events| > 0 && !GaveUp(events)
    && after.kind.SDK?
    && after.phase == match verdict
                      case Delivered => Done(true)
                      case Fatal(_) => Done(false)
                      case Retry => Ready
  }

  /** The world but for the labels drawn. */
  function Undrawn(w: World, labels: nat): World {
    w.(labels := labels)
  }

  /** From the upload's answer to `w` by polling, and by drawing a label if `newLabel`. */
  ghost predicate PolledAndDrew(t: Timings, env: Env, sent: World, newLabel: bool, w: World) {
    && w.polls > sent.polls
    && PolledUntil(t, env, sent, w.polls - sent.polls, Undrawn(w, sent.labels))
    && w.labels == sent.labels + (if newLabel then 1 else 0)
  }

  /** One attempt that begins in `start`: what it does, where that leaves the world, and the
      verdict. */
  ghost predicate Tried(t: Timings, env: Env, start: World, verdict: AttemptVerdict, w: World) {
    var sent := DoSend(env, start);
    && w.sends == sent.sends
    && Explains(env, w, start.polls, verdict)
    && (match SendOutcome(env.sendReply(start.sends))
        case Accepted => w == sent
        case Rejected(err) => if err.ambiguous then PolledAndDrew(t, env, sent, verdict.Retry?, w) else w == sent)
  }

  lemma OneVerdict(last: PollReply, a: AttemptVerdict, b: AttemptVerdict)
    requires Decides(last, a) && Decides(last, b)
    ensures a == b
  {
    hide SaysVisible, SaysGone, ExpiryError;
  }

  lemma DrawIsDetermined(t: Timings, env: Env, sent: World, newLabel: bool, v: World, w: World)
    requires PolledAndDrew(t, env, sent, newLabel, v) && PolledAndDrew(t, env, sent, newLabel, w)
    ensures v == w
  {
    PollsAreDetermined(t, env, sent, newLabel, v, newLabel, w);
    assert v == Undrawn(v, sent.labels).(labels := v.labels);
    assert w == Undrawn(w, sent.labels).(labels := w.labels);
    hide PolledUntil;
  }

  lemma PollsAreDetermined(t: Timings, env: Env, sent: World, a: bool, v: World, b: bool, w: World)
    requires PolledAndDrew(t, env, sent, a, v) && PolledAndDrew(t, env, sent, b, w)
    ensures v.polls == w.polls && Undrawn(v, sent.labels) == Undrawn(w, sent.labels)
  {
    PollingIsDetermined(t, env, sent, v.polls - sent.polls, Undrawn(v, sent.labels),
                        w.polls - sent.polls, Undrawn(w, sent.labels));
    hide PolledUntil, Undrawn;
  }

  /** Any two accounts of one attempt agree. */
  lemma AttemptIsDetermined(t: Timings, env: Env, start: World, a: AttemptVerdict, v: World, b: AttemptVerdict,
                            w: World)
    requires Tried(t, env, start, a, v) && Tried(t, env, start, b, w)
    ensures a == b && v == w
  {
    var sent := DoSend(env, start);
    var outcome := SendOutcome(env.sendReply(start.sends));
    assert LastOutcome(env, v) == LastOutcome(env, w) == outcome;
    hide PolledAndDrew, SendOutcome, Decides, DoSend, LastOutcome;
    if outcome.Rejected? && outcome.err.ambiguous {
      PollsAreDetermined(t, env, sent, a.Retry?, v, b.Retry?, w);
      OneVerdict(env.pollReply(v.polls - 1), a, b);
      DrawIsDetermined(t, env, sent, a.Retry?, v, w);
    }
  }

  /** The delivery after an upload and its answer. */
  function Uploaded(d: Delivery, reply: SendReply): Delivery
    requires d.phase.Ready?
  {
    ClientStep(ClientStep(d, SendRequest), SendReplied(reply))
  }

  lemma UploadTraces(env: Env, start: World, d: Delivery)
    requires d.phase.Ready?
    ensures var reply := env.sendReply(start.sends);
            Traces(env, start, d, [SendRequest, SendReplied(reply)], DoSend(env, start), Uploaded(d, reply))
  {
    var reply := env.sendReply(start.sends);
    TraceStarts(env, start, d, start);
    TraceOn(env, start, d, [], start, d, SendRequest, start);
    var sending := ClientStep(d, SendRequest);
    TraceOn(env, start, d, [] + [SendRequest], start, sending, SendReplied(reply), DoSend(env, start));
    assert [] + [SendRequest] + [SendReplied(reply)] == [SendRequest, SendReplied(reply)];
    hide Traces;
  }

  lemma UploadMoves(d: Delivery, reply: SendReply)
    requires d.phase.Ready?
    ensures var after := Uploaded(d, reply);
            && after.kind == d.kind && after.attempts == d.attempts + 1
            && after.current == d.current && after.abandoned == d.abandoned
            && match ReadSend(d.kind, reply)
               case Accepted => after.phase == Done(true)
               case Rejected(err) =>
                 && !(err.ambiguous && err.retriable)
                 && (err.ambiguous ==> after.phase.Polling? && after.lastPoll.None?)
                 && (err.retriable ==> after.phase.Ready?)
                 && (!err.ambiguous && !err.retriable ==> after.phase == Done(false))
  {
    SuccessIsOnlyOnEvidence(reply);
    hide SendOutcome, DemoOutcome, SaysLoaded;
  }

  lemma LabelMoves(d: Delivery, l: Label)
    requires d.phase.NeedLabel?
    ensures ClientEnabled(d, NewLabel(l))
    ensures var after := ClientStep(d, NewLabel(l));
            && after.phase.Ready? && after.kind == d.kind && after.attempts == d.attempts
            && Labels(after) == Labels(d) + [l]
  {}

  /** One upload and, when its fate is unclear, the poll that settles it. A retry after a
      poll carries a fresh label; any other retry keeps the label. */
  method Attempt(t: Timings, env: Env, start: World, d: Delivery)
    returns (verdict: AttemptVerdict, w: World, events: seq<ClientEvent>, after: Delivery)
    requires ValidTimings(t) && d.kind.SDK? && d.phase.Ready?
    ensures Tried(t, env, start, verdict, w)
    ensures Leads(env, start, d, events, w, after, verdict) && after.attempts == d.attempts + 1
    ensures w.now >= start.now + env.sendTime(start.sends)
    ensures verdict.Retry? ==>
              Labels(after) == Labels(d) + (if w.polls > start.polls then [env.freshLabel(start.labels)] else [])
  {
    var reply := env.sendReply(start.sends);
    UploadTraces(env, start, d);
    UploadMoves(d, reply);
    w, events, after := DoSend(env, start), [SendRequest, SendReplied(reply)], Uploaded(d, reply);
    assert Labels(after) == Labels(d) && Labels(after) + [] == Labels(after);
    hide Traces, SendOutcome, Uploaded, ClientStep, ClientEnabled, Labels, PolledAndDrew;
    var outcome := SendOutcome(reply);
    if outcome.Accepted? {
      verdict := Delivered;
      return;
    }
    var err := outcome.err;
    if !err.ambiguous {
      verdict := if err.retriable then Retry else Fatal(err);
      return;
    }
    verdict, w, events, after := Settle(t, env, start, d, events, w, after);
  }

  /** The polled part of an attempt, from the upload's answer in `now` on, ends in `w` with
      `verdict`; a retry has a fresh label. */
  ghost predicate SettledAs(t: Timings, env: Env, start: World, d: Delivery, now: World, polled: Delivery,
                            events: seq<ClientEvent>, w: World, after: Delivery, verdict: AttemptVerdict)
  {
    && PolledAndDrew(t, env, now, verdict.Retry?, w)
    && w.now >= now.now && w.sends == now.sends && w.polls > now.polls
    && Decides(env.pollReply(w.polls - 1), verdict)
    && Leads(env, start, d, events, w, after, verdict) && after.attempts == polled.attempts
    && (verdict.Retry? ==> Labels(after) == Labels(polled) + [env.freshLabel(now.labels)])
  }

  /** The label is polled, and replaced when that leaves the way open for another try. */
  method Settle(t: Timings, env: Env, ghost start: World, ghost d: Delivery, said: seq<ClientEvent>, now: World,
                polled: Delivery)
    returns (verdict: AttemptVerdict, w: World, events: seq<ClientEvent>, after: Delivery)
    requires ValidTimings(t) && polled.kind.SDK? && polled.phase.Polling? && polled.lastPoll.None?
    requires Traces(env, start, d, said, now, polled)
    ensures SettledAs(t, env, start, d, now, polled, events, w, after, verdict)
  {
    var concluded, polls, windowEnd, lastPollAt, talk;
    concluded, w, polls, windowEnd, lastPollAt, talk, after := PollLabelUntilConclusion(t, env, now, polled);
    events := said + talk;
    ConversationEnds(t, env, start, d, said, now, polled, polls, talk, w, after, concluded);
    hide *;
    if concluded.Loaded? {
      return Delivered, w, events, after;
    }
    var err := if concluded.Gone? then LoadError(true, false) else concluded.err;
    if !err.retriable {
      return Fatal(err), w, events, after;
    }
    var l := env.freshLabel(w.labels);
    LabelDrawn(t, env, start, d, now, polled, events, w, after, l);
    w, events, after := w.(labels := w.labels + 1), events + [NewLabel(l)], ClientStep(after, NewLabel(l));
    verdict := Retry;
  }

  /** What a conversation's verdict makes of the attempt. */
  lemma VerdictDecides(concluded: Verdict, last: PollReply)
    requires Follows(concluded, last)
    ensures concluded.Loaded? ==> Decides(last, Delivered)
    ensures concluded.Expired? && !concluded.err.retriable ==> Decides(last, Fatal(concluded.err))
    ensures concluded.Gone? || (concluded.Expired? && concluded.err.retriable) ==> Decides(last, Retry)
  {}

  lemma ConversationJoins(env: Env, start: World, d: Delivery, said: seq<ClientEvent>, now: World, polled: Delivery,
                          talk: seq<ClientEvent>, w: World, after: Delivery, concluded: Verdict)
    requires polled.phase.Polling? && Traces(env, start, d, said, now, polled)
    requires Concluded(env, now, polled, talk, w, after, concluded)
    ensures Traces(env, start, d, said + talk, w, after)
    ensures |said + talk| > 0 && !GaveUp(said + talk)
    ensures w.sends == now.sends && w.labels == now.labels
    ensures after.kind == polled.kind && after.attempts == polled.attempts && Labels(after) == Labels(polled)
    ensures after.phase == (match concluded
                            case Loaded => Done(true)
                            case Gone => NeedLabel
                            case Expired(err) => if polled.kind.SDK? && err.retriable then NeedLabel else Done(false))
  {
    TraceJoins(env, start, d, said, now, polled, talk, w, after);
    SomethingSaid(polled, talk, after);
    assert (said + talk)[|said + talk| - 1] == talk[|talk| - 1];
    hide Traces;
  }

  /** The polling of an attempt, as part of it. */
  lemma ConversationEnds(t: Timings, env: Env, start: World, d: Delivery, said: seq<ClientEvent>, now: World,
                         polled: Delivery, polls: nat, talk: seq<ClientEvent>, w: World, after: Delivery,
                         concluded: Verdict)
    requires polled.kind.SDK? && polled.phase.Polling? && Traces(env, start, d, said, now, polled)
    requires Settled(t, env, now, polled, polls, talk, w, after, concluded)
    ensures concluded.Loaded? ==> SettledAs(t, env, start, d, now, polled, said + talk, w, after, Delivered)
    ensures concluded.Expired? && !concluded.err.retriable ==>
              SettledAs(t, env, start, d, now, polled, said + talk, w, after, Fatal(concluded.err))
    ensures concluded.Gone? || (concluded.Expired? && concluded.err.retriable) ==>
              Needs(t, env, start, d, now, polled, said + talk, w, after)
  {
    ConversationJoins(env, start, d, said, now, polled, talk, w, after, concluded);
    VerdictDecides(concluded, env.pollReply(w.polls - 1));
    assert Undrawn(w, now.labels) == w && polls == w.polls - now.polls;
    hide Traces, Concluded, PolledUntil, Follows, Decides, GaveUp, Labels, PollsFit, ExactSleeps, PollAt, PollDeadline,
         Undrawn;
  }

  /** Polling is over and leaves the delivery in need of a label. */
  ghost predicate Needs(t: Timings, env: Env, start: World, d: Delivery, now: World, polled: Delivery,
                        events: seq<ClientEvent>, w: World, after: Delivery)
  {
    && PolledAndDrew(t, env, now, false, w)
    && Traces(env, start, d, events, w, after)
    && after.phase.NeedLabel? && after.kind.SDK? && after.attempts == polled.attempts
    && Labels(after) == Labels(polled) && w.labels == now.labels
    && w.now >= now.now && w.sends == now.sends && w.polls > now.polls
    && Decides(env.pollReply(w.polls - 1), Retry)
  }

  lemma LabelDrawn(t: Timings, env: Env, start: World, d: Delivery, now: World, polled: Delivery,
                   events: seq<ClientEvent>, w: World, after: Delivery, l: Label)
    requires Needs(t, env, start, d, now, polled, events, w, after) && l == env.freshLabel(w.labels)
    ensures ClientEnabled(after, NewLabel(l))
    ensures SettledAs(t, env, start, d, now, polled, events + [NewLabel(l)], w.(labels := w.labels + 1),
                      ClientStep(after, NewLabel(l)), Retry)
  {
    LabelMoves(after, l);
    var later := w.(labels := w.labels + 1);
    TraceOn(env, start, d, events, w, after, NewLabel(l), later);
    assert Undrawn(later, now.labels) == w == Undrawn(w, now.labels);
    hide Traces, PolledUntil, Labels, ClientStep, ClientEnabled, Decides, Undrawn;
  }

  lemma SomethingSaid(d: Delivery, events: seq<ClientEvent>, after: Delivery)
    requires RunClient(d, events) == Some(after) && after.phase != d.phase
    ensures |events| > 0
  {}

  /** The full backoffs slept so far: after `attempts` attempts and as many waits, the
      clock is at least that far into the retry window, or at its end. */
  ghost predicate OnSchedule(t: Timings, attempts: nat, deadline: int, now: int) {
    now >= deadline - t.uploadTimeout + Min(t.uploadTimeout, TotalDelay(t.retryInitial, t.retryMax, attempts))
  }

  ghost predicate BudgetLeft(t: Timings, attempts: nat) {
    TotalDelay(t.retryInitial, t.retryMax, attempts) < t.uploadTimeout
  }

  /** An attempt that ends inside the window leaves part of the budget unspent. */
  lemma AttemptEndsInWindow(t: Timings, attempts: nat, deadline: int, before: int, now: int)
    requires OnSchedule(t, attempts, deadline, before) && before < now <= deadline
    ensures BudgetLeft(t, attempts)
    ensures OnSchedule(t, attempts, deadline, now)
  {}

  lemma WaitKeepsSchedule(t: Timings, attempts: nat, deadline: int, reading: int, now: int)
    requires attempts >= 1 && BudgetLeft(t, attempts - 1)
    requires OnSchedule(t, attempts - 1, deadline, reading)
    requires now >= reading + Max(0, Min(Delay(t.retryInitial, t.retryMax, attempts), deadline - reading))
    ensures OnSchedule(t, attempts, deadline, now)
  {}

  // ---- when the attempts happen ----

  /** The look at the clock after a retriable attempt; the first such failure reads it once
      more before, for the deadline. */
  function LookedAfter(env: Env, w: World, first: bool): World {
    if first then ReadClock(env, ReadClock(env, w)) else ReadClock(env, w)
  }

  /** After the wait that follows the n-th look: the backoff or the rest of the window. */
  function RestedAfter(t: Timings, env: Env, looked: World, n: nat, deadline: int): World
    requires n >= 1
  {
    var timed := ReadClock(env, looked);
    Sleep(env, timed, Min(Delay(t.retryInitial, t.retryMax, n), deadline - timed.now))
  }

  /** `ends` are the worlds in which the attempts ended. The first, when it can be retried,
      sets the deadline. */
  function RetryDeadline(t: Timings, env: Env, ends: seq<World>): int
    requires |ends| > 0
  {
    ReadClock(env, ends[0]).now + t.uploadTimeout
  }

  function LookAt(env: Env, ends: seq<World>, n: nat): World
    requires 1 <= n <= |ends|
  {
    LookedAfter(env, ends[n - 1], n == 1)
  }

  function RestAt(t: Timings, env: Env, ends: seq<World>, n: nat): World
    requires 1 <= n <= |ends|
  {
    RestedAfter(t, env, LookAt(env, ends, n), n, RetryDeadline(t, env, ends))
  }

  /** The world in which attempt number n + 1 begins. */
  function TryAt(t: Timings, env: Env, start: World, ends: seq<World>, n: nat): World
    requires n <= |ends|
  {
    if n == 0 then ReadClock(env, start) else ReadClock(env, RestAt(t, env, ends, n))
  }

  /** Attempt number k + 1 began in time, ended in a retriable failure, and found the window
      open. */
  ghost predicate Retried(t: Timings, env: Env, start: World, ends: seq<World>, k: nat)
    requires k < |ends|
  {
    && Tried(t, env, TryAt(t, env, start, ends, k), Retry, ends[k])
    && LookAt(env, ends, k + 1).now <= RetryDeadline(t, env, ends)
    && (k > 0 ==> TryAt(t, env, start, ends, k).now <= RetryDeadline(t, env, ends))
  }

  ghost predicate RetriedUpTo(t: Timings, env: Env, start: World, ends: seq<World>, n: nat)
    requires n <= |ends|
  {
    forall k: nat :: k < n ==> Retried(t, env, start, ends, k)
  }

  /** The whole delivery, attempt by attempt, up to the world `w` in which it reports. */
  ghost predicate Runs(t: Timings, env: Env, start: World, ends: seq<World>, err: Option<DeliveryError>, w: World) {
    && |ends| >= 1
    && RetriedUpTo(t, env, start, ends, |ends| - 1)
    && var n, deadline := |ends|, RetryDeadline(t, env, ends);
       && (n > 1 ==> TryAt(t, env, start, ends, n - 1).now <= deadline)
       && Tried(t, env, TryAt(t, env, start, ends, n - 1), VerdictBehind(err), ends[n - 1])
       && if err != Some(TimedOut) then w == ReadClock(env, ends[n - 1])
          else if LookAt(env, ends, n).now > deadline then w == ReadClock(env, LookAt(env, ends, n))
          else TryAt(t, env, start, ends, n).now > deadline && w == ReadClock(env, TryAt(t, env, start, ends, n))
  }

  lemma TriedTakesTime(t: Timings, env: Env, start: World, verdict: AttemptVerdict, w: World)
    requires Tried(t, env, start, verdict, w)
    ensures w.now >= start.now + env.sendTime(start.sends)
  {
    var sent := DoSend(env, start);
    if w.polls > sent.polls {
      PollAtRises(t, env, sent, w.polls - sent.polls - 1);
    }
    hide PollAt, PollsGoOn, Explains, IsConclusive;
  }

  /** Retries keep pace with the backoffs: each leaves some of the window's budget, and by its
      rest the clock is that far into the window or at its end. */
  lemma {:induction false} RetriesKeepPace(t: Timings, env: Env, start: World, ends: seq<World>, n: nat)
    requires ValidTimings(t) && forall k :: env.sendTime(k) >= 1
    requires 1 <= n <= |ends| && RetriedUpTo(t, env, start, ends, n)
    ensures BudgetLeft(t, n - 1)
    ensures OnSchedule(t, n, RetryDeadline(t, env, ends), RestAt(t, env, ends, n).now)
    ensures ExactClock(env) ==> RestAt(t, env, ends, n).now <= RetryDeadline(t, env, ends)
  {
    var deadline, looked := RetryDeadline(t, env, ends), LookAt(env, ends, n);
    var timed := ReadClock(env, looked);
    assert Retried(t, env, start, ends, n - 1);
    if n == 1 {
      assert OnSchedule(t, 0, deadline, timed.now) && BudgetLeft(t, 0);
    } else {
      RetriesKeepPace(t, env, start, ends, n - 1);
      var before := TryAt(t, env, start, ends, n - 1);
      TriedTakesTime(t, env, before, Retry, ends[n - 1]);
      hide Tried, Delay;
      AttemptEndsInWindow(t, n - 1, deadline, before.now, looked.now);
      assert OnSchedule(t, n - 1, deadline, timed.now);
    }
    hide Tried, Delay;
    WaitKeepsSchedule(t, n, deadline, timed.now, RestAt(t, env, ends, n).now);
    hide OnSchedule, BudgetLeft, RetriedUpTo;
  }

  /** The rest after the n-th look takes the n-th backoff, or what is left of the window if
      that is less, and on an exact clock nothing more. */
  lemma RestIsTheBackoff(t: Timings, env: Env, looked: World, n: nat, deadline: int)
    requires ValidTimings(t) && n >= 1 && ExactClock(env) && looked.now <= deadline
    ensures RestedAfter(t, env, looked, n, deadline).now ==
            looked.now + Min(Iterate(t.retryInitial, t.retryMax, n - 1), deadline - looked.now)
  {
    DelayIsIterate(t.retryInitial, t.retryMax, n);
    DelayBounds(t.retryInitial, t.retryMax, n);
    hide Delay, Iterate;
  }

  /** On an exact clock the window is the whole upload timeout, from the end of the first
      retriable attempt. */
  lemma WindowIsWhole(t: Timings, env: Env, ends: seq<World>)
    requires |ends| > 0 && ExactClock(env)
    ensures RetryDeadline(t, env, ends) == ends[0].now + t.uploadTimeout
    ensures forall n :: 1 <= n <= |ends| ==> LookAt(env, ends, n).now == ends[n - 1].now
  {}

  /** All rests up to the n-th. */
  function TimeAtRest(t: Timings, env: Env, ends: seq<World>, n: nat): int
    requires n <= |ends|
  {
    if n == 0 then 0 else TimeAtRest(t, env, ends, n - 1) + RestAt(t, env, ends, n).now - LookAt(env, ends, n).now
  }

  /** One rest, by the backoff's closed form. */
  lemma OneRest(t: Timings, env: Env, start: World, ends: seq<World>, n: nat)
    requires ValidTimings(t) && ExactClock(env) && 1 <= n <= |ends| && Retried(t, env, start, ends, n - 1)
    ensures RestAt(t, env, ends, n).now - LookAt(env, ends, n).now ==
            Min(Delay(t.retryInitial, t.retryMax, n), RetryDeadline(t, env, ends) - LookAt(env, ends, n).now)
  {
    RestIsTheBackoff(t, env, LookAt(env, ends, n), n, RetryDeadline(t, env, ends));
    DelayIsIterate(t.retryInitial, t.retryMax, n);
    hide Delay, Iterate, LookedAfter, RestedAfter, RetryDeadline, Tried, TryAt;
  }

  /** The rests up to the n-th, in terms of the backoffs. */
  ghost predicate RestsAre(t: Timings, env: Env, ends: seq<World>, n: nat)
    requires 1 <= n <= |ends|
  {
    TimeAtRest(t, env, ends, n) ==
    TotalDelay(t.retryInitial, t.retryMax, n - 1)
    + Min(Delay(t.retryInitial, t.retryMax, n), RetryDeadline(t, env, ends) - LookAt(env, ends, n).now)
  }

  lemma FirstRest(t: Timings, env: Env, start: World, ends: seq<World>)
    requires ValidTimings(t) && ExactClock(env) && |ends| >= 1 && Retried(t, env, start, ends, 0)
    ensures RestsAre(t, env, ends, 1)
  {
    OneRest(t, env, start, ends, 1);
    assert TimeAtRest(t, env, ends, 0) == 0 && TotalDelay(t.retryInitial, t.retryMax, 0) == 0;
    hide RestAt, LookAt, RetryDeadline, Retried, Delay, ExactClock;
  }

  lemma NextRest(t: Timings, env: Env, start: World, ends: seq<World>, n: nat)
    requires ValidTimings(t) && ExactClock(env) && forall k :: env.sendTime(k) >= 1
    requires 2 <= n <= |ends| && Retried(t, env, start, ends, n - 2) && Retried(t, env, start, ends, n - 1)
    requires RestsAre(t, env, ends, n - 1)
    ensures RestsAre(t, env, ends, n)
  {
    var a, b := t.retryInitial, t.retryMax;
    hide RestAt, LookAt, RetryDeadline, Retried, Delay, ExactClock;
    assert TotalDelay(a, b, n - 1) == TotalDelay(a, b, n - 2) + Delay(a, b, n - 1);
    hide TotalDelay;
    OneRest(t, env, start, ends, n);
    EarlierRestsAreWhole(t, env, start, ends, n - 1);
  }

  /** On an exact clock the rests add up to the backoffs, each in full but perhaps the last,
      which the window may cut short. */
  lemma {:induction false} RestsAddUp(t: Timings, env: Env, start: World, ends: seq<World>, n: nat)
    requires ValidTimings(t) && ExactClock(env) && forall k :: env.sendTime(k) >= 1
    requires 1 <= n <= |ends| && RetriedUpTo(t, env, start, ends, n)
    ensures TimeAtRest(t, env, ends, n) ==
            TotalDelay(t.retryInitial, t.retryMax, n - 1)
            + Min(Delay(t.retryInitial, t.retryMax, n), RetryDeadline(t, env, ends) - LookAt(env, ends, n).now)
    decreases n
  {
    hide TimeAtRest, TotalDelay, Delay, LookAt, RetryDeadline, Retried, ExactClock;
    assert Retried(t, env, start, ends, n - 1) && (n > 1 ==> Retried(t, env, start, ends, n - 2));
    if n == 1 {
      FirstRest(t, env, start, ends);
    } else {
      RestsAddUp(t, env, start, ends, n - 1);
      NextRest(t, env, start, ends, n);
    }
  }

  /** A rest that another retriable attempt followed was not cut short. */
  lemma EarlierRestsAreWhole(t: Timings, env: Env, start: World, ends: seq<World>, n: nat)
    requires ValidTimings(t) && ExactClock(env) && forall k :: env.sendTime(k) >= 1
    requires 1 <= n < |ends| && Retried(t, env, start, ends, n - 1) && Retried(t, env, start, ends, n)
    ensures Delay(t.retryInitial, t.retryMax, n) < RetryDeadline(t, env, ends) - LookAt(env, ends, n).now
  {
    RestIsTheBackoff(t, env, LookAt(env, ends, n), n, RetryDeadline(t, env, ends));
    DelayIsIterate(t.retryInitial, t.retryMax, n);
    TriedTakesTime(t, env, TryAt(t, env, start, ends, n), Retry, ends[n]);
    WindowIsWhole(t, env, ends);
    assert LookAt(env, ends, n + 1).now == ends[n].now;
    hide Delay, Iterate, Tried, RestedAfter, LookedAfter, RetryDeadline;
  }

  /** After a retriable failure: open the retry window if this is the first one, stop if
      it has closed, and otherwise wait for the backoff or the rest of the window. */
  method WaitToRetry(t: Timings, env: Env, start: World, attempts: nat, window: Option<int>)
    returns (goOn: bool, w: World, retryDeadline: int)
    requires ValidTimings(t) && attempts >= 1
    ensures retryDeadline == (if window.Some? then window.value else ReadClock(env, start).now + t.uploadTimeout)
    ensures var looked := LookedAfter(env, start, window.None?);
            && (goOn <==> looked.now <= retryDeadline)
            && w == if goOn then RestedAfter(t, env, looked, attempts, retryDeadline) else looked
    ensures SameAnswers(start, w) && w.now >= start.now
  {
    w := start;
    if window.None? {
      w := ReadClock(env, w);
      retryDeadline := w.now + t.uploadTimeout;
    } else {
      retryDeadline := window.value;
    }
    w := ReadClock(env, w);
    if w.now > retryDeadline {
      goOn := false;
      return;
    }
    var backoff := RetryBackoffDelay(t.retryInitial, t.retryMax, attempts);
    w := ReadClock(env, w);
    if backoff > retryDeadline - w.now {
      backoff := retryDeadline - w.now;
    }
    w := Sleep(env, w, backoff);
    goOn := true;
  }

  /** No attempt after the first begins past the retry deadline, nor once the backoffs
      before the last have used up the window. */
  ghost predicate StartsInTime(t: Timings, startedAt: seq<int>, window: Option<int>) {
    && (|startedAt| >= 2 ==> window.Some? && BudgetLeft(t, |startedAt| - 2))
    && (window.Some? ==> forall k :: 1 <= k < |startedAt| ==> startedAt[k] <= window.value)
  }

  /** What the delivery reports of its attempts is what the clock showed. */
  ghost predicate Reported(t: Timings, env: Env, start: World, ends: seq<World>, result: DeliveryResult, w: World,
                           startedAt: seq<int>, retryDeadline: Option<int>)
  {
    && |ends| == |startedAt| == result.attempts >= 1
    && (forall k :: 0 <= k < |startedAt| ==> startedAt[k] == TryAt(t, env, start, ends, k).now)
    && retryDeadline == (if |ends| == 1 && result.err != Some(TimedOut) then None
                         else Some(RetryDeadline(t, env, ends)))
    && result.startedAt == ReadClock(env, start).now && result.finishedAt == w.now
  }

  /** The whole account of a delivery: what happened, and what is said of it. */
  ghost predicate Accounted(t: Timings, env: Env, start: World, ends: seq<World>, result: DeliveryResult, w: World,
                            startedAt: seq<int>, retryDeadline: Option<int>)
  {
    Runs(t, env, start, ends, result.err, w) && Reported(t, env, start, ends, result, w, startedAt, retryDeadline)
  }

  function VerdictAt(ends: seq<World>, err: Option<DeliveryError>, k: nat): AttemptVerdict {
    if k + 1 < |ends| then Retry else VerdictBehind(err)
  }

  lemma AttemptAt(t: Timings, env: Env, start: World, ends: seq<World>, err: Option<DeliveryError>, w: World, k: nat)
    requires Runs(t, env, start, ends, err, w) && k < |ends|
    ensures Tried(t, env, TryAt(t, env, start, ends, k), VerdictAt(ends, err, k), ends[k])
    ensures k + 1 < |ends| ==>
              && VerdictAt(ends, err, k).Retry?
              && LookAt(env, ends, k + 1).now <= RetryDeadline(t, env, ends)
              && TryAt(t, env, start, ends, k + 1).now <= RetryDeadline(t, env, ends)
  {
    hide Tried, TryAt, LookAt, RetryDeadline;
    if k + 1 < |ends| {
      assert Retried(t, env, start, ends, k);
      assert k + 2 < |ends| ==> Retried(t, env, start, ends, k + 1);
    }
  }

  lemma SameTimes(t: Timings, env: Env, start: World, a: seq<World>, b: seq<World>, n: nat)
    requires n <= |a| && n <= |b| && a[..n] == b[..n]
    ensures TryAt(t, env, start, a, n) == TryAt(t, env, start, b, n)
    ensures n >= 1 ==> LookAt(env, a, n) == LookAt(env, b, n) && RetryDeadline(t, env, a) == RetryDeadline(t, env, b)
  {
    assert n >= 1 ==> a[0] == a[..n][0] && b[0] == b[..n][0] && a[n - 1] == a[..n][n - 1] && b[n - 1] == b[..n][n - 1];
    hide ReadClock, Sleep, Delay;
  }

  lemma {:induction false} SameAttempts(t: Timings, env: Env, start: World, a: seq<World>, ea: Option<DeliveryError>,
                                        v: World, b: seq<World>, eb: Option<DeliveryError>, w: World, n: nat)
    requires Runs(t, env, start, a, ea, v) && Runs(t, env, start, b, eb, w) && n <= |a| && n <= |b|
    ensures a[..n] == b[..n]
    ensures n >= 1 ==> VerdictAt(a, ea, n - 1) == VerdictAt(b, eb, n - 1)
  {
    hide *;
    if n == 0 {
      assert a[..0] == b[..0];
    } else {
      SameAttempts(t, env, start, a, ea, v, b, eb, w, n - 1);
      SameTimes(t, env, start, a, b, n - 1);
      AttemptAt(t, env, start, a, ea, v, n - 1);
      AttemptAt(t, env, start, b, eb, w, n - 1);
      AttemptIsDetermined(t, env, TryAt(t, env, start, a, n - 1), VerdictAt(a, ea, n - 1), a[n - 1],
                          VerdictAt(b, eb, n - 1), b[n - 1]);
      assert a[..n] == a[..n - 1] + [a[n - 1]] && b[..n] == b[..n - 1] + [b[n - 1]];
    }
  }

  /** A delivery that stops after its last attempt has a reason to. */
  lemma LastAttempt(t: Timings, env: Env, start: World, ends: seq<World>, err: Option<DeliveryError>, w: World)
    requires Runs(t, env, start, ends, err, w)
    ensures |ends| >= 1
    ensures var n, deadline := |ends|, RetryDeadline(t, env, ends);
            && (VerdictAt(ends, err, n - 1).Retry? ==>
                  LookAt(env, ends, n).now > deadline || TryAt(t, env, start, ends, n).now > deadline)
            && w == (if err != Some(TimedOut) then ReadClock(env, ends[n - 1])
                     else if LookAt(env, ends, n).now > deadline then ReadClock(env, LookAt(env, ends, n))
                     else ReadClock(env, TryAt(t, env, start, ends, n)))
            && VerdictAt(ends, err, n - 1) == VerdictBehind(err)
  {
    hide Tried, TryAt, LookAt, RetryDeadline, RetriedUpTo;
  }

  lemma NoneEndsBefore(t: Timings, env: Env, start: World, a: seq<World>, ea: Option<DeliveryError>, v: World,
                       b: seq<World>, eb: Option<DeliveryError>, w: World)
    requires Runs(t, env, start, a, ea, v) && Runs(t, env, start, b, eb, w)
    ensures |a| >= |b|
  {
    hide *;
    if |a| < |b| {
      var n := |a|;
      LastAttempt(t, env, start, a, ea, v);
      SameAttempts(t, env, start, a, ea, v, b, eb, w, n);
      SameTimes(t, env, start, a, b, n);
      AttemptAt(t, env, start, b, eb, w, n - 1);
      assert false;
    }
  }

  lemma OneError(a: Option<DeliveryError>, b: Option<DeliveryError>)
    requires VerdictBehind(a) == VerdictBehind(b)
    ensures a == b
  {}

  /** Any two accounts of one delivery agree: when each attempt begins and ends, the outcome
      and the time of the report are the environment's doing, not the reporter's. */
  lemma DeliveryIsDetermined(t: Timings, env: Env, start: World, a: seq<World>, ea: Option<DeliveryError>, v: World,
                             b: seq<World>, eb: Option<DeliveryError>, w: World)
    requires Runs(t, env, start, a, ea, v) && Runs(t, env, start, b, eb, w)
    ensures a == b && ea == eb && v == w
  {
    hide *;
    NoneEndsBefore(t, env, start, a, ea, v, b, eb, w);
    NoneEndsBefore(t, env, start, b, eb, w, a, ea, v);
    SameAttempts(t, env, start, a, ea, v, b, eb, w, |a|);
    assert a == a[..|a|] && b == b[..|a|];
    LastAttempt(t, env, start, a, ea, v);
    LastAttempt(t, env, start, b, eb, w);
    OneError(ea, eb);
  }

  /** The retry bound: it follows from the account of the attempts. */
  lemma RetriesAreBounded(t: Timings, env: Env, start: World, ends: seq<World>, result: DeliveryResult, w: World,
                          startedAt: seq<int>, retryDeadline: Option<int>)
    requires ValidTimings(t) && forall k :: env.sendTime(k) >= 1
    requires Accounted(t, env, start, ends, result, w, startedAt, retryDeadline)
    ensures StartsInTime(t, startedAt, retryDeadline)
    ensures result.err == Some(TimedOut) ==> retryDeadline.Some? && result.finishedAt > retryDeadline.value
    ensures result.err == Some(TimedOut) && ExactClock(env) ==> result.attempts >= 2
    ensures result.err == Some(TimedOut) && ExactClock(env) ==> ends[|ends| - 1].now > retryDeadline.value
  {
    var n := |ends|;
    if n > 1 {
      RetriesKeepPace(t, env, start, ends, n - 1);
    }
    forall k: nat | 1 <= k < n
      ensures startedAt[k] <= RetryDeadline(t, env, ends)
    {
      assert k < n - 1 ==> Retried(t, env, start, ends, k);
    }
    hide Tried, BudgetLeft, OnSchedule, Delay, RetriedUpTo;
  }

  /** Ready for one more attempt, by a run of the protocol. */
  ghost predicate Trying(env: Env, start: World, first: Label, events: seq<ClientEvent>, w: World, after: Delivery,
                         attempts: nat)
  {
    && Traces(env, start, StartDelivery(SDK, first), events, w, after)
    && after.kind.SDK? && after.phase.Ready? && after.attempts == attempts
    && w.sends == start.sends + attempts
  }

  function VerdictBehind(err: Option<DeliveryError>): AttemptVerdict {
    match err
    case None => Delivered
    case Some(TimedOut) => Retry
    case Some(Failed(cause)) => Fatal(cause)
  }

  /** Over, by a run of the protocol, with the result the last attempt's verdict calls for;
      the time is given as the reason exactly when the run ends in giving up. */
  ghost predicate Ended(env: Env, start: World, first: Label, events: seq<ClientEvent>, w: World, after: Delivery,
                        err: Option<DeliveryError>, attempts: nat)
  {
    && Traces(env, start, StartDelivery(SDK, first), events, w, after)
    && after.phase == Done(err.None?) && after.attempts == attempts >= 1
    && w.sends == start.sends + attempts
    && (GaveUp(events) <==> err == Some(TimedOut))
    && (exists polls: nat :: Explains(env, w, polls, VerdictBehind(err)))
  }

  /** One attempt as part of the whole delivery. */
  method TryOnce(t: Timings, env: Env, ghost start: World, ghost first: Label, said: seq<ClientEvent>, now: World,
                 d: Delivery, attempts: nat)
    returns (verdict: AttemptVerdict, w: World, events: seq<ClientEvent>, after: Delivery)
    requires ValidTimings(t) && Trying(env, start, first, said, now, d, attempts)
    ensures Tried(t, env, now, verdict, w)
    ensures w.now >= now.now + env.sendTime(now.sends) && w.sends == now.sends + 1
    ensures verdict.Retry? ==>
              Trying(env, start, first, events, w, after, attempts + 1) && Explains(env, w, now.polls, Retry)
    ensures !verdict.Retry? ==> Ended(env, start, first, events, w, after, ErrorOf(verdict), attempts + 1)
  {
    var d0 := StartDelivery(SDK, first);
    var tried;
    verdict, w, tried, after := Attempt(t, env, now, d);
    TraceJoins(env, start, d0, said, now, d, tried, w, after);
    events := said + tried;
    assert events[|events| - 1] == tried[|tried| - 1];
    hide Traces, Explains;
    assert !verdict.Retry? ==> Explains(env, w, now.polls, VerdictBehind(ErrorOf(verdict)));
  }

  function ErrorOf(verdict: AttemptVerdict): Option<DeliveryError> {
    match verdict
    case Delivered => None
    case Fatal(err) => Some(Failed(err))
    case Retry => Some(TimedOut)
  }

  lemma EndedWaits(env: Env, start: World, first: Label, events: seq<ClientEvent>, w: World, after: Delivery,
                   err: Option<DeliveryError>, attempts: nat, later: World)
    requires Ended(env, start, first, events, w, after, err, attempts) && SameAnswers(w, later)
    ensures Ended(env, start, first, events, later, after, err, attempts)
  {
    TraceWaits(env, start, StartDelivery(SDK, first), events, w, after, later);
    var polls: nat :| Explains(env, w, polls, VerdictBehind(err));
    assert Explains(env, later, polls, VerdictBehind(err));
    hide Traces, Explains, VerdictBehind, GaveUp;
  }

  lemma TryingWaits(env: Env, start: World, first: Label, events: seq<ClientEvent>, w: World, after: Delivery,
                    attempts: nat, later: World)
    requires Trying(env, start, first, events, w, after, attempts) && SameAnswers(w, later)
    ensures Trying(env, start, first, events, later, after, attempts)
    ensures forall polls: nat :: attempts > 0 && Explains(env, w, polls, Retry) ==> Explains(env, later, polls, Retry)
  {
    TraceWaits(env, start, StartDelivery(SDK, first), events, w, after, later);
    hide Traces;
  }

  /** The retry window has closed: the delivery ends with the timeout error. */
  method ReportTimeout(env: Env, ghost start: World, ghost first: Label, said: seq<ClientEvent>, now: World,
                       d: Delivery, attempts: nat, startedAt: int, ghost asked: nat)
    returns (result: DeliveryResult, w: World, events: seq<ClientEvent>, after: Delivery)
    requires Trying(env, start, first, said, now, d, attempts)
    requires attempts > 0 && now.sends > 0 && Explains(env, now, asked, Retry)
    ensures Ended(env, start, first, events, w, after, Some(TimedOut), attempts)
    ensures result == DeliveryResult(Some(TimedOut), attempts, startedAt, w.now) && w == ReadClock(env, now)
  {
    w := ReadClock(env, now);
    TraceOn(env, start, StartDelivery(SDK, first), said, now, d, GiveUp, w);
    events, after := said + [GiveUp], ClientStep(d, GiveUp);
    assert Explains(env, w, asked, Retry);
    hide Traces, Explains;
    assert Explains(env, w, asked, VerdictBehind(Some(TimedOut)));
    result := DeliveryResult(Some(TimedOut), attempts, startedAt, w.now);
  }

  /** About to rest on, after attempts that ended in `ends`. */
  ghost predicate Retrying(t: Timings, env: Env, start: World, ends: seq<World>, w: World, startedAt: seq<int>,
                           retryDeadline: Option<int>)
  {
    && |ends| == |startedAt| && RetriedUpTo(t, env, start, ends, |ends|)
    && w == (if |ends| == 0 then ReadClock(env, start) else RestAt(t, env, ends, |ends|))
    && retryDeadline == (if |ends| == 0 then None else Some(RetryDeadline(t, env, ends)))
    && (forall k :: 0 <= k < |startedAt| ==> startedAt[k] == TryAt(t, env, start, ends, k).now)
  }

  /** Earlier attempts keep their times when one more ends. */
  lemma EarlierTimesStay(t: Timings, env: Env, start: World, ends: seq<World>, e: World, k: nat)
    requires k <= |ends|
    ensures TryAt(t, env, start, ends + [e], k) == TryAt(t, env, start, ends, k)
    ensures |ends| > 0 ==> RetryDeadline(t, env, ends + [e]) == RetryDeadline(t, env, ends)
    ensures k < |ends| ==> Retried(t, env, start, ends + [e], k) == Retried(t, env, start, ends, k)
  {
    hide Tried, ReadClock, Sleep, Delay;
  }

  lemma EarlierRetriesStay(t: Timings, env: Env, start: World, ends: seq<World>, e: World)
    requires RetriedUpTo(t, env, start, ends, |ends|)
    ensures RetriedUpTo(t, env, start, ends + [e], |ends|)
  {
    hide Retried;
    forall k: nat | k < |ends|
      ensures Retried(t, env, start, ends + [e], k)
    {
      assert Retried(t, env, start, ends, k);
      EarlierTimesStay(t, env, start, ends, e, k);
    }
  }

  /** The window has closed over the last rest. */
  lemma ClosedWhileResting(t: Timings, env: Env, start: World, ends: seq<World>, w: World, startedAt: seq<int>,
                           retryDeadline: Option<int>, result: DeliveryResult)
    requires Retrying(t, env, start, ends, w, startedAt, retryDeadline) && |ends| > 0
    requires ReadClock(env, w).now > retryDeadline.value
    requires var end := ReadClock(env, ReadClock(env, w));
             result == DeliveryResult(Some(TimedOut), |ends|, ReadClock(env, start).now, end.now)
    ensures Accounted(t, env, start, ends, result, ReadClock(env, ReadClock(env, w)), startedAt, retryDeadline)
  {
    assert Retried(t, env, start, ends, |ends| - 1);
    hide Tried, ReadClock, LookAt, RestAt, RetryDeadline;
  }

  /** One more attempt, begun in time. */
  ghost predicate OneMore(t: Timings, env: Env, start: World, ends: seq<World>, startedAt: seq<int>,
                          retryDeadline: Option<int>, verdict: AttemptVerdict, e: World)
  {
    && |ends| == |startedAt| && RetriedUpTo(t, env, start, ends, |ends|)
    && (forall k :: 0 <= k < |startedAt| ==> startedAt[k] == TryAt(t, env, start, ends, k).now)
    && retryDeadline == (if |ends| == 0 then None else Some(RetryDeadline(t, env, ends)))
    && (|ends| > 0 ==> TryAt(t, env, start, ends, |ends|).now <= RetryDeadline(t, env, ends))
    && Tried(t, env, TryAt(t, env, start, ends, |ends|), verdict, e)
  }

  lemma OneMoreBegins(t: Timings, env: Env, start: World, ends: seq<World>, w: World, startedAt: seq<int>,
                      retryDeadline: Option<int>, at: World, verdict: AttemptVerdict, e: World)
    requires Retrying(t, env, start, ends, w, startedAt, retryDeadline)
    requires at == (if |ends| == 0 then w else ReadClock(env, w))
    requires retryDeadline.Some? ==> at.now <= retryDeadline.value
    requires Tried(t, env, at, verdict, e)
    ensures OneMore(t, env, start, ends, startedAt, retryDeadline, verdict, e)
    ensures at == TryAt(t, env, start, ends, |ends|)
  {
    hide Tried, RetriedUpTo;
  }

  lemma TimesSoFar(t: Timings, env: Env, start: World, ends: seq<World>, startedAt: seq<int>,
                   retryDeadline: Option<int>, verdict: AttemptVerdict, e: World)
    requires OneMore(t, env, start, ends, startedAt, retryDeadline, verdict, e)
    ensures var all := startedAt + [TryAt(t, env, start, ends, |ends|).now];
            forall k :: 0 <= k < |all| ==> all[k] == TryAt(t, env, start, ends + [e], k).now
  {
    hide Tried, TryAt, RetriedUpTo;
    forall k: nat | k <= |ends|
      ensures TryAt(t, env, start, ends + [e], k) == TryAt(t, env, start, ends, k)
    {
      EarlierTimesStay(t, env, start, ends, e, k);
    }
  }

  /** ... and it was the last: it succeeded or failed for good. */
  lemma LastOne(t: Timings, env: Env, start: World, ends: seq<World>, startedAt: seq<int>, retryDeadline: Option<int>,
                verdict: AttemptVerdict, e: World, result: DeliveryResult)
    requires OneMore(t, env, start, ends, startedAt, retryDeadline, verdict, e) && !verdict.Retry?
    requires result == DeliveryResult(ErrorOf(verdict), |ends| + 1, ReadClock(env, start).now, ReadClock(env, e).now)
    ensures Accounted(t, env, start, ends + [e], result, ReadClock(env, e),
                      startedAt + [TryAt(t, env, start, ends, |ends|).now], retryDeadline)
  {
    TimesSoFar(t, env, start, ends, startedAt, retryDeadline, verdict, e);
    EarlierTimesStay(t, env, start, ends, e, |ends|);
    EarlierRetriesStay(t, env, start, ends, e);
    hide Tried, TryAt, RetriedUpTo, RetryDeadline, ReadClock;
    assert (ends + [e])[|ends|] == e;
  }

  /** ... and it can be retried: either the window has closed, or the client rests. */
  lemma RetryOrNot(t: Timings, env: Env, start: World, ends: seq<World>, startedAt: seq<int>,
                   retryDeadline: Option<int>, e: World, deadline: int)
    requires OneMore(t, env, start, ends, startedAt, retryDeadline, Retry, e)
    requires deadline == if retryDeadline.Some? then retryDeadline.value else ReadClock(env, e).now + t.uploadTimeout
    ensures var looked := LookedAfter(env, e, retryDeadline.None?);
            var all, began := ends + [e], startedAt + [TryAt(t, env, start, ends, |ends|).now];
            var result := DeliveryResult(Some(TimedOut), |ends| + 1, ReadClock(env, start).now,
                                         ReadClock(env, looked).now);
            if looked.now <= deadline then
              Retrying(t, env, start, all, RestedAfter(t, env, looked, |ends| + 1, deadline), began, Some(deadline))
            else Accounted(t, env, start, all, result, ReadClock(env, looked), began, Some(deadline))
  {
    TimesSoFar(t, env, start, ends, startedAt, retryDeadline, Retry, e);
    EarlierTimesStay(t, env, start, ends, e, |ends|);
    EarlierRetriesStay(t, env, start, ends, e);
    assert (ends + [e])[|ends|] == e && (|ends| == 0 ==> (ends + [e])[0] == e);
    assert RetryDeadline(t, env, ends + [e]) == deadline;
    assert LookAt(env, ends + [e], |ends| + 1) == LookedAfter(env, e, retryDeadline.None?);
    hide Tried, TryAt, RetryDeadline, ReadClock, LookAt, LookedAfter;
    assert LookAt(env, ends + [e], |ends| + 1).now <= deadline ==> Retried(t, env, start, ends + [e], |ends|);
    hide Retried;
  }

  /** Deliver one batch: try, wait, try again until it concludes or the retry deadline,
      set by the first retriable failure, has passed. */
  method DeliverBatch(t: Timings, env: Env, start: World, first: Label)
    returns (result: DeliveryResult, w: World, startedAt: seq<int>, retryDeadline: Option<int>,
             events: seq<ClientEvent>, after: Delivery, ghost ends: seq<World>)
    requires ValidTimings(t)
    requires forall k :: env.sendTime(k) >= 1
    ensures Ended(env, start, first, events, w, after, result.err, result.attempts)
    ensures Accounted(t, env, start, ends, result, w, startedAt, retryDeadline)
    ensures StartsInTime(t, startedAt, retryDeadline)
    ensures result.err == Some(TimedOut) ==> retryDeadline.Some? && result.finishedAt > retryDeadline.value
    ensures result.err == Some(TimedOut) && ExactClock(env) ==> result.attempts >= 2
  {
    w := ReadClock(env, start);
    var started := w.now;
    var attempts := 0;
    retryDeadline, startedAt, ends := None, [], [];
    events, after := [], StartDelivery(SDK, first);
    ghost var asked := w.polls;
    TraceStarts(env, start, after, w);
    assert Trying(env, start, first, events, w, after, attempts);
    assert Retrying(t, env, start, ends, w, startedAt, retryDeadline);
    hide *;
    while true
      invariant Trying(env, start, first, events, w, after, attempts)
      invariant Retrying(t, env, start, ends, w, startedAt, retryDeadline)
      invariant attempts == |startedAt| == |ends| && (retryDeadline.None? <==> attempts == 0)
      invariant w.sends == start.sends + attempts
      invariant attempts > 0 ==> Explains(env, w, asked, Retry)
      decreases if retryDeadline.None? then 1 else 0, if retryDeadline.None? then 0 else retryDeadline.value - w.now
    {
      ghost var rested := w;
      if attempts > 0 {
        TryingWaits(env, start, first, events, w, after, attempts, ReadClock(env, w));
        w := ReadClock(env, w);
        if w.now > retryDeadline.value {
          result, w, events, after := ReportTimeout(env, start, first, events, w, after, attempts, started, asked);
          ClosedWhileResting(t, env, start, ends, rested, startedAt, retryDeadline, result);
          break;
        }
      }
      ghost var at, began := w, startedAt;
      startedAt := startedAt + [w.now];
      asked := w.polls;
      var verdict;
      verdict, w, events, after := TryOnce(t, env, start, first, events, w, after, attempts);
      attempts := attempts + 1;
      OneMoreBegins(t, env, start, ends, rested, began, retryDeadline, at, verdict, w);
      ghost var e, earlier := w, ends;
      ends := ends + [w];
      if !verdict.Retry? {
        EndedWaits(env, start, first, events, w, after, ErrorOf(verdict), attempts, ReadClock(env, w));
        w := ReadClock(env, w);
        result := DeliveryResult(ErrorOf(verdict), attempts, started, w.now);
        LastOne(t, env, start, earlier, began, retryDeadline, verdict, e, result);
        break;
      }
      var goOn, later, deadline := WaitToRetry(t, env, w, attempts, retryDeadline);
      TryingWaits(env, start, first, events, w, after, attempts, later);
      RetryOrNot(t, env, start, earlier, began, retryDeadline, e, deadline);
      w, retryDeadline := later, Some(deadline);
      if !goOn {
        result, w, events, after := ReportTimeout(env, start, first, events, w, after, attempts, started, asked);
        break;
      }
    }
    RetriesAreBounded(t, env, start, ends, result, w, startedAt, retryDeadline);
  }

  /** With the built-in timings no batch is tried more than 78 times. */
  lemma DefaultAttempts(t: Timings, attempts: nat)
    requires attempts >= 2 && BudgetLeft(t, attempts - 2)
    requires t.retryInitial == UPLOAD_RETRY_INITIAL && t.retryMax == UPLOAD_RETRY_MAX
    requires t.uploadTimeout == DEFAULT_UPLOAD_TIMEOUT
    ensures attempts <= 78
  {
    DefaultRetriesFit(attempts - 2);
  }
}
