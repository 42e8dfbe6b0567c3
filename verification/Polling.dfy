/** Polling a label until its fate is clear or the window closes: the loop, when each poll
    happens, and the run of the protocol it makes. */
module Polling {
  import opened Seqs
  import opened Replies
  import opened LabelProtocol
  import opened Backoff
  import opened Worlds

  datatype Verdict = Loaded | Gone | Expired(err: LoadError)

  /** All pauses but the last fell within the window, which bounds the number of polls. */
  ghost predicate PollsFit(t: Timings, polls: nat) {
    polls >= 2 ==> TotalDelay(t.pollInitial, t.pollMax, polls - 2) <= t.pollTimeout
  }

  /** Only the conversation has moved: same labels, same attempts, nothing sent. */
  predicate OnlyPolled(start: World, d: Delivery, w: World, after: Delivery) {
    && w.sends == start.sends && w.labels == start.labels
    && after == d.(phase := after.phase, lastPoll := after.lastPoll)
  }

  ghost predicate PollingOn(env: Env, start: World, d: Delivery, events: seq<ClientEvent>, w: World, after: Delivery) {
    Traces(env, start, d, events, w, after) && after.phase.Polling? && OnlyPolled(start, d, w, after)
  }

  /** The conversation has ended with `verdict`, as a run of the protocol. */
  ghost predicate Concluded(env: Env, start: World, d: Delivery, events: seq<ClientEvent>, w: World, after: Delivery,
                            verdict: Verdict)
  {
    && Traces(env, start, d, events, w, after)
    && OnlyPolled(start, d, w, after)
    && !GaveUp(events)
    && after.phase == match verdict
                      case Loaded => Done(true)
                      case Gone => NeedLabel
                      case Expired(err) => if d.kind.SDK? && err.retriable then NeedLabel else Done(false)
  }

  /** One more reply: it settles the matter, or polling goes on. */
  lemma PollMoves(env: Env, start: World, d: Delivery, events: seq<ClientEvent>, w: World, after: Delivery)
    requires PollingOn(env, start, d, events, w, after)
    ensures var reply := env.pollReply(w.polls);
            var said, next := events + [PollReplied(reply)], DoPoll(env, w);
            && ClientEnabled(after, PollReplied(reply))
            && var moved := ClientStep(after, PollReplied(reply));
               && (SaysVisible(reply) ==> Concluded(env, start, d, said, next, moved, Loaded))
               && (SaysGone(reply) ==> Concluded(env, start, d, said, next, moved, Gone))
               && (!IsConclusive(reply) ==>
                     moved.lastPoll == Some(reply) && PollingOn(env, start, d, said, next, moved))
  {
    var reply := env.pollReply(w.polls);
    TraceOn(env, start, d, events, w, after, PollReplied(reply), DoPoll(env, w));
    hide Traces;
  }

  lemma PollingWaits(env: Env, start: World, d: Delivery, events: seq<ClientEvent>, w: World, after: Delivery,
                     later: World)
    requires PollingOn(env, start, d, events, w, after) && SameAnswers(w, later)
    ensures PollingOn(env, start, d, events, later, after)
  {
    TraceWaits(env, start, d, events, w, after, later);
    hide Traces;
  }

  lemma WindowCloses(env: Env, start: World, d: Delivery, events: seq<ClientEvent>, w: World, after: Delivery)
    requires PollingOn(env, start, d, events, w, after) && after.lastPoll.Some?
    ensures ClientEnabled(after, PollExpired)
    ensures Concluded(env, start, d, events + [PollExpired], w, ClientStep(after, PollExpired),
                      Expired(ExpiryError(after.lastPoll.value)))
  {
    TraceOn(env, start, d, events, w, after, PollExpired, w);
    hide Traces;
  }

  // ---- when the polls happen ----

  /** The world in which poll number k + 1 of a conversation begins: the clock was read for
      the deadline, and after each poll read again and one backoff slept. */
  function PollAt(t: Timings, env: Env, start: World, k: nat): World {
    if k == 0 then ReadClock(env, start)
    else Sleep(env, Looked(env, PollAt(t, env, start, k - 1)), Delay(t.pollInitial, t.pollMax, k))
  }

  /** The look at the clock after a poll that begins in `w`. */
  function Looked(env: Env, w: World): World {
    ReadClock(env, DoPoll(env, w))
  }

  function PollDeadline(t: Timings, env: Env, start: World): int {
    ReadClock(env, start).now + t.pollTimeout
  }

  /** The first n polls were inconclusive and the window was open after each. */
  ghost predicate PollsGoOn(t: Timings, env: Env, start: World, n: nat) {
    forall k: nat :: k < n ==> RoundGoesOn(t, env, start, k)
  }

  predicate RoundGoesOn(t: Timings, env: Env, start: World, k: nat) {
    && !IsConclusive(env.pollReply(start.polls + k))
    && Looked(env, PollAt(t, env, start, k)).now <= PollDeadline(t, env, start)
  }

  /** Polling takes n polls and leaves the world at `w`: at the first conclusive reply, or at
      the first look at the clock that finds the window closed. */
  ghost predicate PolledUntil(t: Timings, env: Env, start: World, n: nat, w: World) {
    && n >= 1 && PollsGoOn(t, env, start, n - 1)
    && var last := PollAt(t, env, start, n - 1);
       if IsConclusive(env.pollReply(start.polls + n - 1)) then w == DoPoll(env, last)
       else w == Looked(env, last) && w.now > PollDeadline(t, env, start)
  }

  /** Any two accounts of one conversation agree: the environment alone decides. */
  lemma PollingIsDetermined(t: Timings, env: Env, start: World, m: nat, v: World, n: nat, w: World)
    requires PolledUntil(t, env, start, m, v) && PolledUntil(t, env, start, n, w)
    ensures m == n && v == w
  {
    hide PollAt, Looked, PollDeadline, IsConclusive;
    assert m < n ==> RoundGoesOn(t, env, start, m - 1);
    assert n < m ==> RoundGoesOn(t, env, start, n - 1);
  }

  /** Between a look at the clock and the next poll lies exactly the next backoff, when
      sleeps are exact. */
  lemma PauseIsTheBackoff(t: Timings, env: Env, start: World, k: nat)
    requires ValidTimings(t) && ExactSleeps(env) && k >= 1
    ensures PollAt(t, env, start, k).now ==
            Looked(env, PollAt(t, env, start, k - 1)).now + Iterate(t.pollInitial, t.pollMax, k - 1)
  {
    DelayIsIterate(t.pollInitial, t.pollMax, k);
    DelayBounds(t.pollInitial, t.pollMax, k);
    hide Delay, Iterate;
  }

  /** The window in plain numbers: the first poll comes at once, an expiry is past the poll
      timeout, and every look at the clock before the last poll was within it. */
  lemma WindowOfPolling(t: Timings, env: Env, start: World, n: nat, w: World)
    requires PolledUntil(t, env, start, n, w) && ExactClock(env)
    ensures PollAt(t, env, start, 0).now == start.now
    ensures !IsConclusive(env.pollReply(start.polls + n - 1)) ==> w.now > start.now + t.pollTimeout
    ensures forall k: nat :: k < n - 1 ==> Looked(env, PollAt(t, env, start, k)).now <= start.now + t.pollTimeout
  {
    forall k: nat | k < n - 1
      ensures Looked(env, PollAt(t, env, start, k)).now <= start.now + t.pollTimeout
    {
      assert RoundGoesOn(t, env, start, k);
    }
    hide PollAt, Looked, IsConclusive;
  }

  /** While polling goes on the pauses add up, which bounds the number of polls; and with
      exact sleeps no poll starts more than one backoff after the deadline. */
  lemma {:induction false} PollsKeepPace(t: Timings, env: Env, start: World, n: nat)
    requires ValidTimings(t) && PollsGoOn(t, env, start, n)
    ensures PollAt(t, env, start, n).now >= ReadClock(env, start).now + TotalDelay(t.pollInitial, t.pollMax, n)
    ensures PollsFit(t, n + 1)
    ensures ExactSleeps(env) ==> PollAt(t, env, start, n).now <= PollDeadline(t, env, start) + t.pollMax
  {
    if n == 0 {
      assert PollAt(t, env, start, 0) == ReadClock(env, start);
    } else {
      assert RoundGoesOn(t, env, start, n - 1);
      PollsKeepPace(t, env, start, n - 1);
      DelayBounds(t.pollInitial, t.pollMax, n);
      hide Delay, IsConclusive, PollsGoOn;
    }
  }

  /** About to make poll number n + 1. */
  ghost predicate PollingAt(t: Timings, env: Env, start: World, d: Delivery, n: nat, events: seq<ClientEvent>, w: World,
                            after: Delivery)
  {
    && w == PollAt(t, env, start, n) && w.polls == start.polls + n
    && PollsGoOn(t, env, start, n)
    && PollingOn(env, start, d, events, w, after)
  }

  /** The verdict is the last reply's, and an expiry carries its error. */
  predicate Follows(verdict: Verdict, reply: PollReply) {
    && (verdict.Loaded? <==> SaysVisible(reply))
    && (verdict.Gone? <==> SaysGone(reply))
    && (verdict.Expired? ==> verdict.err == ExpiryError(reply))
  }

  /** What n polls have come to: the environment's account of them, the verdict of the last
      reply, a run of the protocol, and the two bounds. */
  ghost predicate Settled(t: Timings, env: Env, start: World, d: Delivery, n: nat, events: seq<ClientEvent>, w: World,
                          after: Delivery, verdict: Verdict)
  {
    && PolledUntil(t, env, start, n, w) && w.polls == start.polls + n && w.now >= start.now
    && Follows(verdict, env.pollReply(w.polls - 1))
    && (verdict.Expired? ==> w.now > PollDeadline(t, env, start))
    && Concluded(env, start, d, events, w, after, verdict)
    && PollsFit(t, n)
    && (ExactSleeps(env) ==> PollAt(t, env, start, n - 1).now <= PollDeadline(t, env, start) + t.pollMax)
  }

  lemma PollingStarts(t: Timings, env: Env, start: World, d: Delivery)
    requires d.phase.Polling? && d.lastPoll.None?
    ensures PollingAt(t, env, start, d, 0, [], ReadClock(env, start), d)
  {
    TraceStarts(env, start, d, ReadClock(env, start));
    hide Traces;
  }

  lemma {:induction false} PollAtRises(t: Timings, env: Env, start: World, n: nat)
    ensures PollAt(t, env, start, n).now >= start.now
  {
    if n == 0 {
      assert PollAt(t, env, start, 0) == ReadClock(env, start);
    } else {
      PollAtRises(t, env, start, n - 1);
    }
  }

  lemma PollReturns(t: Timings, env: Env, start: World, d: Delivery, n: nat, events: seq<ClientEvent>, w: World,
                    after: Delivery)
    requires PollingAt(t, env, start, d, n, events, w, after)
    ensures ClientEnabled(after, PollReplied(env.pollReply(w.polls)))
    ensures w == PollAt(t, env, start, n)
  {}

  /** A conclusive reply settles the matter at once. */
  lemma ReplySettles(t: Timings, env: Env, start: World, d: Delivery, n: nat, events: seq<ClientEvent>, w: World,
                     after: Delivery, verdict: Verdict)
    requires ValidTimings(t) && PollingAt(t, env, start, d, n, events, w, after)
    requires ClientEnabled(after, PollReplied(env.pollReply(w.polls)))
    requires var reply := env.pollReply(w.polls);
             (verdict.Loaded? && SaysVisible(reply)) || (verdict.Gone? && SaysGone(reply))
    ensures var reply := env.pollReply(w.polls);
            Settled(t, env, start, d, n + 1, events + [PollReplied(reply)], DoPoll(env, w),
                    ClientStep(after, PollReplied(reply)), verdict)
  {
    PollMoves(env, start, d, events, w, after);
    PollsKeepPace(t, env, start, n);
    PollAtRises(t, env, start, n);
    hide PollingOn, Concluded, PollsFit, ExactSleeps, PollAt, PollsGoOn, ClientStep, ClientEnabled, PollDeadline,
         Looked;
  }

  /** An inconclusive one that finds the window closed settles it as well. */
  lemma ExpirySettles(t: Timings, env: Env, start: World, d: Delivery, n: nat, events: seq<ClientEvent>, w: World,
                      after: Delivery)
    requires ValidTimings(t) && PollingAt(t, env, start, d, n, events, w, after)
    requires var reply := env.pollReply(w.polls);
             && !SaysVisible(reply) && !SaysGone(reply) && ClientEnabled(after, PollReplied(reply))
    requires ReadClock(env, DoPoll(env, w)).now > PollDeadline(t, env, start)
    ensures var reply := env.pollReply(w.polls);
            var moved := ClientStep(after, PollReplied(reply));
            && ClientEnabled(moved, PollExpired)
            && Settled(t, env, start, d, n + 1, events + [PollReplied(reply)] + [PollExpired],
                       ReadClock(env, DoPoll(env, w)), ClientStep(moved, PollExpired), Expired(ExpiryError(reply)))
  {
    var reply := env.pollReply(w.polls);
    PollMoves(env, start, d, events, w, after);
    var moved := ClientStep(after, PollReplied(reply));
    var said := events + [PollReplied(reply)];
    PollingWaits(env, start, d, said, DoPoll(env, w), moved, Looked(env, w));
    WindowCloses(env, start, d, said, Looked(env, w), moved);
    PollsKeepPace(t, env, start, n);
    PollAtRises(t, env, start, n);
    hide PollingOn, Concluded, PollsFit, ExactSleeps, PollAt, PollsGoOn, ClientStep, ClientEnabled, PollDeadline,
         ExpiryError;
  }

  /** An inconclusive one inside the window: one more backoff, and polling goes on. */
  lemma RoundRepeats(t: Timings, env: Env, start: World, d: Delivery, n: nat, events: seq<ClientEvent>, w: World,
                     after: Delivery)
    requires ValidTimings(t) && PollingAt(t, env, start, d, n, events, w, after)
    requires var reply := env.pollReply(w.polls);
             && !SaysVisible(reply) && !SaysGone(reply) && ClientEnabled(after, PollReplied(reply))
    requires ReadClock(env, DoPoll(env, w)).now <= PollDeadline(t, env, start)
    ensures var reply, backoff := env.pollReply(w.polls), Delay(t.pollInitial, t.pollMax, n + 1);
            var later := Sleep(env, ReadClock(env, DoPoll(env, w)), backoff);
            && PollingAt(t, env, start, d, n + 1, events + [PollReplied(reply)], later,
                         ClientStep(after, PollReplied(reply)))
            && later.now > w.now
            && NextBackoff(backoff, t.pollMax) == Delay(t.pollInitial, t.pollMax, n + 2)
  {
    var reply := env.pollReply(w.polls);
    PollMoves(env, start, d, events, w, after);
    DelayBounds(t.pollInitial, t.pollMax, n + 1);
    NextIsDelay(t.pollInitial, t.pollMax, n + 1);
    var later := Sleep(env, Looked(env, w), Delay(t.pollInitial, t.pollMax, n + 1));
    var moved := ClientStep(after, PollReplied(reply));
    PollingWaits(env, start, d, events + [PollReplied(reply)], DoPoll(env, w), moved, later);
    assert PollAt(t, env, start, n + 1) == later;
    assert RoundGoesOn(t, env, start, n);
    hide PollingOn, Concluded, PollAt, ClientStep, ClientEnabled, PollDeadline, IsConclusive, Delay, RoundGoesOn,
         NextBackoff;
  }

  /** Poll until the label's state is conclusive or the window closes. The client's
      pollLabelUntilConclusion and the demo's waitForLabel are this loop. */
  method PollLabelUntilConclusion(t: Timings, env: Env, start: World, d: Delivery)
    returns (verdict: Verdict, w: World, polls: nat, deadline: int, lastPollAt: int, events: seq<ClientEvent>,
             after: Delivery)
    requires ValidTimings(t) && d.phase.Polling? && d.lastPoll.None?
    ensures polls >= 1 && Settled(t, env, start, d, polls, events, w, after, verdict)
    ensures deadline == PollDeadline(t, env, start)
    ensures lastPollAt == PollAt(t, env, start, polls - 1).now
  {
    PollingStarts(t, env, start, d);
    w := ReadClock(env, start);
    deadline := w.now + t.pollTimeout;
    var backoff := t.pollInitial;
    assert backoff == Delay(t.pollInitial, t.pollMax, 1);
    polls, events, after := 0, [], d;
    lastPollAt := w.now;
    assert deadline == PollDeadline(t, env, start);
    assert PollingAt(t, env, start, d, polls, events, w, after);
    hide *;
    while true
      invariant PollingAt(t, env, start, d, polls, events, w, after)
      invariant backoff == Delay(t.pollInitial, t.pollMax, polls + 1)
      decreases deadline - w.now
    {
      lastPollAt := w.now;
      var reply := env.pollReply(w.polls);
      OneRound(t, env, start, d, polls, events, w, after);
      w := DoPoll(env, w);
      polls, events, after := polls + 1, events + [PollReplied(reply)], ClientStep(after, PollReplied(reply));
      if SaysVisible(reply) {
        verdict := Loaded;
        break;
      }
      if SaysGone(reply) {
        verdict := Gone;
        break;
      }
      w := ReadClock(env, w);
      if w.now > deadline {
        verdict, events, after := Expired(ExpiryError(reply)), events + [PollExpired], ClientStep(after, PollExpired);
        break;
      }
      w := Sleep(env, w, backoff);
      backoff := NextBackoff(backoff, t.pollMax);
    }
  }

  /** What one turn of the loop comes to. */
  lemma OneRound(t: Timings, env: Env, start: World, d: Delivery, n: nat, events: seq<ClientEvent>, w: World,
                 after: Delivery)
    requires ValidTimings(t) && PollingAt(t, env, start, d, n, events, w, after)
    ensures w == PollAt(t, env, start, n)
    ensures ClientEnabled(after, PollReplied(env.pollReply(w.polls)))
    ensures var reply := env.pollReply(w.polls);
            var moved := ClientStep(after, PollReplied(reply));
            var said, polled := events + [PollReplied(reply)], DoPoll(env, w);
            var looked, backoff := ReadClock(env, polled), Delay(t.pollInitial, t.pollMax, n + 1);
            if SaysVisible(reply) then Settled(t, env, start, d, n + 1, said, polled, moved, Loaded)
            else if SaysGone(reply) then Settled(t, env, start, d, n + 1, said, polled, moved, Gone)
            else if looked.now > PollDeadline(t, env, start) then
              && ClientEnabled(moved, PollExpired)
              && Settled(t, env, start, d, n + 1, said + [PollExpired], looked, ClientStep(moved, PollExpired),
                         Expired(ExpiryError(reply)))
            else
              && PollingAt(t, env, start, d, n + 1, said, Sleep(env, looked, backoff), moved)
              && Sleep(env, looked, backoff).now > w.now
              && NextBackoff(backoff, t.pollMax) == Delay(t.pollInitial, t.pollMax, n + 2)
  {
    PollReturns(t, env, start, d, n, events, w, after);
    var reply := env.pollReply(w.polls);
    hide *;
    if SaysVisible(reply) {
      ReplySettles(t, env, start, d, n, events, w, after, Loaded);
    } else if SaysGone(reply) {
      ReplySettles(t, env, start, d, n, events, w, after, Gone);
    } else if ReadClock(env, DoPoll(env, w)).now > PollDeadline(t, env, start) {
      ExpirySettles(t, env, start, d, n, events, w, after);
    } else {
      RoundRepeats(t, env, start, d, n, events, w, after);
    }
  }

  /** With the built-in timings the window has room for exactly 79 polls of one label. */
  lemma DefaultPolls(t: Timings, polls: nat)
    requires t.pollInitial == STATUS_POLL_INITIAL && t.pollMax == STATUS_POLL_MAX
    requires t.pollTimeout == DEFAULT_POLL_TIMEOUT
    ensures PollsFit(t, polls) <==> polls <= 79
  {
    if polls >= 5 {
      PollTotal(polls - 2);
    } else if polls >= 2 {
      PollTotal(3);
      TotalDelayGrows(STATUS_POLL_INITIAL, STATUS_POLL_MAX, polls - 2, 3);
    }
  }
}
