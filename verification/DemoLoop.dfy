/** The plain demo's upload loop: the same label protocol with a budget of waiting time
    that only shrinks, and no clock reading between attempts. */
module DemoLoop {
  import opened Seqs
  import opened Replies
  import opened LabelProtocol
  import opened Backoff
  import opened Worlds
  import opened Polling
  import opened DeliveryLoops

  datatype Next = Succeed | Exit | TryAgain(newLabel: bool)

  /** What an upload that leaves the world at `w` leads to, with `polls` polls made before it:
      its own answer decides, or, when that is ambiguous, the last poll's. */
  predicate Explains(env: Env, w: World, polls: nat, next: Next)
    requires w.sends > 0
  {
    match DemoOutcome(env.sendReply(w.sends - 1))
    case Accepted => next == Succeed && w.polls == polls
    case Rejected(err) =>
      if !err.ambiguous then w.polls == polls && next == (if err.retriable then TryAgain(false) else Exit)
      else
        && w.polls > polls
        && var last := env.pollReply(w.polls - 1);
           && (next == Succeed <==> SaysVisible(last))
           && (next == TryAgain(true) <==> SaysGone(last))
           && (next == Exit <==> !IsConclusive(last))
  }

  /** One attempt that begins in `start`: what it does, where that leaves the world, and what
      follows. */
  ghost predicate Tried(t: Timings, env: Env, start: World, next: Next, w: World) {
    var sent := DoSend(env, start);
    && w.sends == sent.sends
    && Explains(env, w, start.polls, next)
    && (match DemoOutcome(env.sendReply(start.sends))
        case Accepted => w == sent
        case Rejected(err) => if err.ambiguous then PolledAndDrew(t, env, sent, false, w) else w == sent)
  }

  /** `events` take `d` to where `next` leaves it. */
  ghost predicate Leads(env: Env, start: World, d: Delivery, events: seq<ClientEvent>, w: World, after: Delivery,
                        next: Next)
  {
    && Traces(env, start, d, events, w, after)
    && |events| > 0 && !GaveUp(events)
    && after.kind.Demo? && after.attempts == d.attempts + 1 && Labels(after) == Labels(d)
    && after.phase == match next
                      case Succeed => Done(true)
                      case Exit => Done(false)
                      case TryAgain(newLabel) => if newLabel then NeedLabel else Ready
  }

  /** One upload of the demo and, when ambiguous, its wait for the label. */
  method DemoAttempt(t: Timings, env: Env, start: World, d: Delivery)
    returns (next: Next, w: World, events: seq<ClientEvent>, after: Delivery)
    requires ValidTimings(t) && d.kind.Demo? && d.phase.Ready?
    ensures Tried(t, env, start, next, w)
    ensures Leads(env, start, d, events, w, after, next)
  {
    var reply := env.sendReply(start.sends);
    UploadTraces(env, start, d);
    UploadMoves(d, reply);
    w, events, after := DoSend(env, start), [SendRequest, SendReplied(reply)], Uploaded(d, reply);
    SendDecides(t, env, start, d);
    hide *;
    var outcome := DemoOutcome(reply);
    if outcome.Accepted? {
      return Succeed, w, events, after;
    }
    if !outcome.err.ambiguous {
      return if outcome.err.retriable then TryAgain(false) else Exit, w, events, after;
    }
    ghost var sent, said, uploaded := w, events, after;
    var verdict, polls, windowEnd, lastPollAt, talk;
    verdict, w, polls, windowEnd, lastPollAt, talk, after := PollLabelUntilConclusion(t, env, w, after);
    events := events + talk;
    next := match verdict
      case Loaded => Succeed
      case Gone => TryAgain(true)
      case Expired(_) => Exit;
    WaitDecides(t, env, start, d, said, sent, uploaded, polls, talk, w, after, verdict, next);
  }

  /** An attempt whose answer is clear ends with the upload. */
  lemma SendDecides(t: Timings, env: Env, start: World, d: Delivery)
    requires d.kind.Demo? && d.phase.Ready?
    ensures var reply, w := env.sendReply(start.sends), DoSend(env, start);
            var events, after := [SendRequest, SendReplied(reply)], Uploaded(d, reply);
            match DemoOutcome(reply)
            case Accepted => Tried(t, env, start, Succeed, w) && Leads(env, start, d, events, w, after, Succeed)
            case Rejected(err) =>
              if err.ambiguous then after.kind.Demo? && after.phase.Polling? && after.lastPoll.None?
              else
                var next := if err.retriable then TryAgain(false) else Exit;
                Tried(t, env, start, next, w) && Leads(env, start, d, events, w, after, next)
  {
    UploadTraces(env, start, d);
    UploadMoves(d, env.sendReply(start.sends));
    hide Traces, Uploaded, DemoOutcome, PolledAndDrew;
  }

  lemma WaitDecides(t: Timings, env: Env, start: World, d: Delivery, said: seq<ClientEvent>, sent: World,
                    polled: Delivery, polls: nat, talk: seq<ClientEvent>, w: World, after: Delivery, verdict: Verdict,
                    next: Next)
    requires d.kind.Demo? && d.phase.Ready?
    requires var reply := env.sendReply(start.sends);
             && DemoOutcome(reply).Rejected? && DemoOutcome(reply).err.ambiguous
             && sent == DoSend(env, start) && said == [SendRequest, SendReplied(reply)] && polled == Uploaded(d, reply)
    requires Settled(t, env, sent, polled, polls, talk, w, after, verdict)
    requires next == match verdict
                     case Loaded => Succeed
                     case Gone => TryAgain(true)
                     case Expired(_) => Exit
    ensures Tried(t, env, start, next, w) && Leads(env, start, d, said + talk, w, after, next)
  {
    UploadTraces(env, start, d);
    UploadMoves(d, env.sendReply(start.sends));
    assert Labels(polled) == Labels(d);
    hide Traces, Uploaded, DemoOutcome, PolledAndDrew, Settled, Labels, GaveUp;
    WaitEnds(t, env, start, d, said, sent, polled, polls, talk, w, after, verdict);
  }

  /** The wait for the label, as part of the attempt. */
  lemma WaitEnds(t: Timings, env: Env, start: World, d: Delivery, said: seq<ClientEvent>, sent: World,
                 polled: Delivery, polls: nat, talk: seq<ClientEvent>, w: World, after: Delivery, verdict: Verdict)
    requires polled.kind.Demo? && polled.phase.Polling? && polled.attempts == d.attempts + 1
    requires Labels(polled) == Labels(d) && Traces(env, start, d, said, sent, polled)
    requires Settled(t, env, sent, polled, polls, talk, w, after, verdict)
    ensures w.sends == sent.sends && w.polls > sent.polls && PolledAndDrew(t, env, sent, false, w)
    ensures Traces(env, start, d, said + talk, w, after)
    ensures |said + talk| > 0 && !GaveUp(said + talk)
    ensures after.kind.Demo? && after.attempts == d.attempts + 1 && Labels(after) == Labels(d)
    ensures after.phase == (match verdict
                            case Loaded => Done(true)
                            case Gone => NeedLabel
                            case Expired(_) => Done(false))
    ensures Follows(verdict, env.pollReply(w.polls - 1)) && (verdict.Expired? <==> !verdict.Loaded? && !verdict.Gone?)
  {
    ConversationJoins(env, start, d, said, sent, polled, talk, w, after, verdict);
    assert Undrawn(w, sent.labels) == w && polls == w.polls - sent.polls;
    hide Traces, Concluded, PolledUntil, Undrawn, Follows, Labels, GaveUp, PollsFit, ExactSleeps, PollAt, PollDeadline;
  }

  // ---- when the attempts happen ----

  /** The wait before attempt number n + 1: the backoff, or what is left of the budget. */
  function Pause(t: Timings, n: nat): int
    requires n >= 1
    decreases n, 0
  {
    Min(Delay(t.retryInitial, t.retryMax, n), t.uploadTimeout - Slept(t, n - 1))
  }

  /** The first n waits together. */
  function Slept(t: Timings, n: nat): int
    decreases n, 1
  {
    if n == 0 then 0 else Slept(t, n - 1) + Pause(t, n)
  }

  /** The waits add up to the delays, until the budget is spent. */
  lemma {:induction false} SleptIsCapped(t: Timings, n: nat)
    requires ValidTimings(t)
    ensures Slept(t, n) == Min(t.uploadTimeout, TotalDelay(t.retryInitial, t.retryMax, n)) <= t.uploadTimeout
  {
    if n == 0 {
      assert TotalDelay(t.retryInitial, t.retryMax, 0) == 0;
    } else {
      SleptIsCapped(t, n - 1);
      DelayBounds(t.retryInitial, t.retryMax, n);
      hide Delay;
    }
  }

  function RestedAfter(t: Timings, env: Env, w: World, next: Next, n: nat): World
    requires n >= 1
  {
    Sleep(env, if next == TryAgain(true) then Drawn(w) else w, Pause(t, n))
  }

  /** With exact sleeps the wait before attempt number n + 1 takes the n-th backoff, or what
      the earlier ones have left of the budget. */
  lemma RestIsTheBackoff(t: Timings, env: Env, w: World, next: Next, n: nat)
    requires ValidTimings(t) && n >= 1 && ExactSleeps(env)
    ensures var spent := Min(t.uploadTimeout, TotalDelay(t.retryInitial, t.retryMax, n - 1));
            RestedAfter(t, env, w, next, n).now ==
            w.now + Min(Iterate(t.retryInitial, t.retryMax, n - 1), t.uploadTimeout - spent)
  {
    DelayIsIterate(t.retryInitial, t.retryMax, n);
    DelayBounds(t.retryInitial, t.retryMax, n);
    SleptIsCapped(t, n - 1);
    hide Delay, Iterate, Slept, TotalDelay;
  }

  function Drawn(w: World): World {
    w.(labels := w.labels + 1)
  }

  /** The world in which attempt number n + 1 begins. */
  function TryAt(t: Timings, env: Env, start: World, ends: seq<World>, nexts: seq<Next>, n: nat): World
    requires n <= |ends| == |nexts|
  {
    if n == 0 then start else RestedAfter(t, env, ends[n - 1], nexts[n - 1], n)
  }

  /** All attempts so far happened in turn, and could be retried with budget left. */
  ghost predicate RetriedUpTo(t: Timings, env: Env, start: World, ends: seq<World>, nexts: seq<Next>, n: nat)
    requires n <= |ends| == |nexts|
  {
    forall k: nat :: k < n ==> Retried(t, env, start, ends, nexts, k)
  }

  ghost predicate Retried(t: Timings, env: Env, start: World, ends: seq<World>, nexts: seq<Next>, k: nat)
    requires k < |ends| == |nexts|
  {
    && Tried(t, env, TryAt(t, env, start, ends, nexts, k), nexts[k], ends[k])
    && nexts[k].TryAgain? && Slept(t, k) < t.uploadTimeout
  }

  /** The whole upload: it stops at the first attempt that succeeds, is fatal, or finds the
      budget spent. */
  ghost predicate Runs(t: Timings, env: Env, start: World, ends: seq<World>, nexts: seq<Next>, ok: bool, w: World) {
    && |ends| == |nexts| >= 1
    && var last := |ends| - 1;
       && RetriedUpTo(t, env, start, ends, nexts, last)
       && Tried(t, env, TryAt(t, env, start, ends, nexts, last), nexts[last], ends[last])
       && (!nexts[last].TryAgain? || Slept(t, last) >= t.uploadTimeout)
       && ok == nexts[last].Succeed? && w == ends[last]
  }

  /** One more attempt behind the ones there were. */
  lemma OneMore(t: Timings, env: Env, start: World, ends: seq<World>, nexts: seq<Next>, w: World, next: Next, e: World)
    requires |ends| == |nexts| && RetriedUpTo(t, env, start, ends, nexts, |ends|)
    requires w == TryAt(t, env, start, ends, nexts, |ends|) && Tried(t, env, w, next, e)
    ensures next.TryAgain? && Slept(t, |ends|) < t.uploadTimeout ==>
              RetriedUpTo(t, env, start, ends + [e], nexts + [next], |ends| + 1)
    ensures !next.TryAgain? || Slept(t, |ends|) >= t.uploadTimeout ==>
              Runs(t, env, start, ends + [e], nexts + [next], next.Succeed?, e)
    ensures TryAt(t, env, start, ends + [e], nexts + [next], |ends| + 1) == RestedAfter(t, env, e, next, |ends| + 1)
  {
    hide Tried, RestedAfter, Slept;
    var all, following := ends + [e], nexts + [next];
    forall k: nat | k < |ends|
      ensures Retried(t, env, start, all, following, k)
    {
      assert Retried(t, env, start, ends, nexts, k);
      SameTime(t, env, start, ends, nexts, next, e, k);
    }
    SameTime(t, env, start, ends, nexts, next, e, |ends|);
    hide TryAt;
  }

  lemma SameTime(t: Timings, env: Env, start: World, ends: seq<World>, nexts: seq<Next>, next: Next, e: World, k: nat)
    requires k <= |ends| == |nexts|
    ensures TryAt(t, env, start, ends + [e], nexts + [next], k) == TryAt(t, env, start, ends, nexts, k)
  {
    assert k >= 1 ==> (ends + [e])[k - 1] == ends[k - 1] && (nexts + [next])[k - 1] == nexts[k - 1];
    hide RestedAfter;
  }

  /** After `attempts - 1` attempts and as many waits. */
  ghost predicate Trying(env: Env, start: World, first: Label, events: seq<ClientEvent>, w: World, after: Delivery,
                         attempts: nat)
  {
    && Traces(env, start, StartDelivery(Demo, first), events, w, after)
    && after.kind.Demo? && after.phase.Ready? && attempts >= 1 && after.attempts == attempts - 1
    && w.sends == start.sends + attempts - 1
  }

  /** Over: by success, by a failure that is fatal, or by giving up on one that is not. */
  ghost predicate Ended(env: Env, start: World, first: Label, events: seq<ClientEvent>, w: World, after: Delivery,
                        ok: bool, attempts: nat)
  {
    && Traces(env, start, StartDelivery(Demo, first), events, w, after)
    && after.phase == Done(ok) && after.attempts == attempts >= 1
    && w.sends == start.sends + attempts
    && (exists polls: nat, next :: Explains(env, w, polls, next) &&
          match next
          case Succeed => ok && !GaveUp(events)
          case Exit => !ok && !GaveUp(events)
          case TryAgain(_) => !ok && GaveUp(events))
  }

  /** The attempt as part of the whole upload, with the stop when no budget is left. `e` is
      where the attempt itself ended. */
  method TryOnce(t: Timings, env: Env, ghost start: World, ghost first: Label, said: seq<ClientEvent>, now: World,
                 d: Delivery, attempts: nat, budget: int)
    returns (next: Next, w: World, events: seq<ClientEvent>, after: Delivery, ghost e: World)
    requires ValidTimings(t) && Trying(env, start, first, said, now, d, attempts)
    ensures Tried(t, env, now, next, e)
    ensures w == if next == TryAgain(true) && budget > 0 then Drawn(e) else e
    ensures next.TryAgain? && budget > 0 ==> Trying(env, start, first, events, w, after, attempts + 1)
    ensures !next.TryAgain? || budget <= 0 ==> Ended(env, start, first, events, w, after, next.Succeed?, attempts)
    ensures GaveUp(events) ==> budget <= 0
  {
    var d0 := StartDelivery(Demo, first);
    var tried;
    next, w, tried, after := DemoAttempt(t, env, now, d);
    e := w;
    TraceJoins(env, start, d0, said, now, d, tried, w, after);
    events := said + tried;
    assert events[|events| - 1] == tried[|tried| - 1];
    hide Traces, Explains, PolledAndDrew, DemoOutcome, Labels;
    if next.TryAgain? {
      if budget <= 0 {
        TraceOn(env, start, d0, events, w, after, GiveUp, w);
        events, after := events + [GiveUp], ClientStep(after, GiveUp);
      } else if next.newLabel {
        var l := env.freshLabel(w.labels);
        TraceOn(env, start, d0, events, w, after, NewLabel(l), w.(labels := w.labels + 1));
        w := w.(labels := w.labels + 1);
        events, after := events + [NewLabel(l)], ClientStep(after, NewLabel(l));
      }
    }
  }

  /** Ready for one more attempt, with `slept` of the budget spent. */
  ghost predicate Retrying(t: Timings, env: Env, start: World, ends: seq<World>, nexts: seq<Next>, w: World,
                           attempts: nat, slept: int)
  {
    && |ends| == |nexts| == attempts - 1
    && RetriedUpTo(t, env, start, ends, nexts, |ends|)
    && w == TryAt(t, env, start, ends, nexts, |ends|)
    && slept == Slept(t, |ends|)
  }

  /** The waits of an upload with this many attempts: their sum is what was slept, the delays
      up to the budget, and before the last wait some budget was left. */
  ghost predicate Waited(t: Timings, attempts: nat, slept: int) {
    && attempts >= 1
    && slept == Slept(t, attempts - 1) == Min(t.uploadTimeout, TotalDelay(t.retryInitial, t.retryMax, attempts - 1))
    && (attempts >= 2 ==> BudgetLeft(t, attempts - 2))
  }

  /** The loop of `main`, up to success or the fatal exit. `slept` is all the time it asked
      to wait: never more than the budget it started with, whatever the clock does; and it
      gives up on a failure it could retry only when that is spent. */
  method UploadRows(t: Timings, env: Env, start: World, first: Label)
    returns (ok: bool, attempts: nat, slept: int, w: World, events: seq<ClientEvent>, after: Delivery,
             ghost ends: seq<World>, ghost nexts: seq<Next>)
    requires ValidTimings(t)
    ensures Ended(env, start, first, events, w, after, ok, attempts)
    ensures Runs(t, env, start, ends, nexts, ok, w) && |ends| == attempts
    ensures Waited(t, attempts, slept)
    ensures GaveUp(events) ==> slept == t.uploadTimeout
  {
    var budget := t.uploadTimeout;
    w, attempts, slept, events, after := start, 1, 0, [], StartDelivery(Demo, first);
    ends, nexts := [], [];
    TraceStarts(env, start, after, w);
    assert Trying(env, start, first, events, w, after, attempts);
    assert Retrying(t, env, start, ends, nexts, w, attempts, slept);
    hide *;
    while true
      invariant Trying(env, start, first, events, w, after, attempts)
      invariant Retrying(t, env, start, ends, nexts, w, attempts, slept)
      invariant attempts >= 1 && |ends| == attempts - 1 && budget + slept == t.uploadTimeout
      decreases budget
    {
      ghost var now, e := w, w;
      var next;
      next, w, events, after, e := TryOnce(t, env, start, first, events, w, after, attempts, budget);
      ghost var earlier, before := ends, nexts;
      ends, nexts := ends + [e], nexts + [next];
      if !next.TryAgain? || budget <= 0 {
        StopsHere(t, env, start, earlier, before, now, attempts, slept, next, e);
        ok := next.Succeed?;
        break;
      }
      var backoff := RetryBackoffDelay(t.retryInitial, t.retryMax, attempts);
      if backoff > budget {
        backoff := budget;
      }
      WaitsOn(t, env, start, earlier, before, now, attempts, slept, next, e, w, backoff);
      ghost var drawn := w;
      w := Sleep(env, w, backoff);
      TryingWaits(env, start, first, events, drawn, after, attempts + 1, w);
      attempts, budget, slept := attempts + 1, budget - backoff, slept + backoff;
    }
  }

  lemma StopsHere(t: Timings, env: Env, start: World, ends: seq<World>, nexts: seq<Next>, w: World, attempts: nat,
                  slept: int, next: Next, e: World)
    requires ValidTimings(t) && Retrying(t, env, start, ends, nexts, w, attempts, slept) && Tried(t, env, w, next, e)
    requires !next.TryAgain? || slept >= t.uploadTimeout
    ensures Runs(t, env, start, ends + [e], nexts + [next], next.Succeed?, e)
    ensures Waited(t, attempts, slept) && slept <= t.uploadTimeout
  {
    OneMore(t, env, start, ends, nexts, w, next, e);
    hide RetriedUpTo, TryAt, Tried, Slept, TotalDelay;
    WaitsAreBounded(t, env, start, ends + [e], nexts + [next], next.Succeed?, e);
    hide Runs;
  }

  lemma WaitsOn(t: Timings, env: Env, start: World, ends: seq<World>, nexts: seq<Next>, now: World, attempts: nat,
                slept: int, next: Next, e: World, w: World, backoff: int)
    requires ValidTimings(t) && Retrying(t, env, start, ends, nexts, now, attempts, slept)
    requires Tried(t, env, now, next, e)
    requires next.TryAgain? && slept < t.uploadTimeout && attempts >= 1
    requires w == (if next == TryAgain(true) then Drawn(e) else e)
    requires var delay, budget := Delay(t.retryInitial, t.retryMax, attempts), t.uploadTimeout - slept;
             backoff == if delay > budget then budget else delay
    ensures Retrying(t, env, start, ends + [e], nexts + [next], Sleep(env, w, backoff), attempts + 1, slept + backoff)
    ensures backoff > 0 && SameAnswers(w, Sleep(env, w, backoff))
  {
    OneMore(t, env, start, ends, nexts, now, next, e);
    NextPause(t, env, e, next, attempts, w, backoff);
    hide RetriedUpTo, TryAt, Tried, Slept, Delay, RestedAfter, Drawn, Sleep, SameAnswers;
  }

  /** The demo's retry bound: it follows from the account of the attempts. */
  lemma WaitsAreBounded(t: Timings, env: Env, start: World, ends: seq<World>, nexts: seq<Next>, ok: bool, w: World)
    requires ValidTimings(t) && Runs(t, env, start, ends, nexts, ok, w)
    ensures |ends| >= 1
    ensures Slept(t, |ends| - 1) == Min(t.uploadTimeout, TotalDelay(t.retryInitial, t.retryMax, |ends| - 1))
    ensures Slept(t, |ends| - 1) <= t.uploadTimeout
    ensures |ends| >= 2 ==> BudgetLeft(t, |ends| - 2)
  {
    SleptIsCapped(t, |ends| - 1);
    if |ends| >= 2 {
      SleptIsCapped(t, |ends| - 2);
      assert Retried(t, env, start, ends, nexts, |ends| - 2);
    }
    hide Tried, TryAt, Slept, TotalDelay, RetriedUpTo;
  }

  lemma NextPause(t: Timings, env: Env, e: World, next: Next, n: nat, w: World, backoff: int)
    requires ValidTimings(t) && n >= 1 && Slept(t, n - 1) < t.uploadTimeout
    requires w == (if next == TryAgain(true) then Drawn(e) else e)
    requires var delay, budget := Delay(t.retryInitial, t.retryMax, n), t.uploadTimeout - Slept(t, n - 1);
             backoff == if delay > budget then budget else delay
    ensures RestedAfter(t, env, e, next, n) == Sleep(env, w, backoff)
    ensures Slept(t, n) == Slept(t, n - 1) + backoff && backoff > 0
    ensures SameAnswers(w, Sleep(env, w, backoff))
  {
    SleptIsCapped(t, n - 1);
    DelayBounds(t.retryInitial, t.retryMax, n);
    hide Delay, TotalDelay;
  }

  lemma TryingWaits(env: Env, start: World, first: Label, events: seq<ClientEvent>, w: World, after: Delivery,
                    attempts: nat, later: World)
    requires Trying(env, start, first, events, w, after, attempts) && SameAnswers(w, later)
    ensures Trying(env, start, first, events, later, after, attempts)
  {
    TraceWaits(env, start, StartDelivery(Demo, first), events, w, after, later);
    hide Traces;
  }
}
