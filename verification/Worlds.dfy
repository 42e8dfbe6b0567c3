/** What the loops run against: an environment that answers requests, passes time and
    oversleeps as it likes; and what makes a loop's trace a run of the protocol. */
module Worlds {
  import opened Seqs
  import opened Replies
  import opened LabelProtocol

  /** Nanoseconds. */
  datatype Timings = Timings(
    uploadTimeout: int,
    pollTimeout: int,
    retryInitial: int,
    retryMax: int,
    pollInitial: int,
    pollMax: int)

  predicate ValidTimings(t: Timings) {
    && t.uploadTimeout > 0 && t.pollTimeout > 0
    && 0 < t.retryInitial <= t.retryMax
    && 0 < t.pollInitial <= t.pollMax
  }

  /** What the k-th request, clock reading, sleep or label generation meets. */
  datatype Env = Env(
    sendReply: nat -> SendReply,
    sendTime: nat -> nat,
    pollReply: nat -> PollReply,
    pollTime: nat -> nat,
    drift: nat -> nat,
    oversleep: nat -> nat,
    freshLabel: nat -> Label)

  datatype World = World(now: int, sends: nat, polls: nat, readings: nat, sleeps: nat, labels: nat)

  function ReadClock(env: Env, w: World): World {
    w.(now := w.now + env.drift(w.readings), readings := w.readings + 1)
  }

  /** A non-positive sleep returns at once. */
  function Sleep(env: Env, w: World, d: int): World {
    w.(now := w.now + Max(0, d) + env.oversleep(w.sleeps), sleeps := w.sleeps + 1)
  }

  function DoSend(env: Env, w: World): World {
    w.(now := w.now + env.sendTime(w.sends), sends := w.sends + 1)
  }

  function DoPoll(env: Env, w: World): World {
    w.(now := w.now + env.pollTime(w.polls), polls := w.polls + 1)
  }

  ghost predicate ExactSleeps(env: Env) {
    forall k :: env.oversleep(k) == 0
  }

  /** Time passes in uploads, polls and sleeps only, and sleeps are exact. */
  ghost predicate ExactClock(env: Env) {
    ExactSleeps(env) && forall k :: env.drift(k) == 0
  }

  // ---- a loop's trace is a run of the protocol --------------------------------------

  function SendsIn(events: seq<ClientEvent>): nat {
    if |events| == 0 then 0
    else SendsIn(events[..|events| - 1]) + if events[|events| - 1].SendReplied? then 1 else 0
  }

  function PollsIn(events: seq<ClientEvent>): nat {
    if |events| == 0 then 0
    else PollsIn(events[..|events| - 1]) + if events[|events| - 1].PollReplied? then 1 else 0
  }

  function LabelsIn(events: seq<ClientEvent>): nat {
    if |events| == 0 then 0
    else LabelsIn(events[..|events| - 1]) + if events[|events| - 1].NewLabel? then 1 else 0
  }

  /** The world after `events`, its clock aside: what has been asked how often. */
  predicate Counts(start: World, events: seq<ClientEvent>, w: World) {
    && w.sends == start.sends + SendsIn(events)
    && w.polls == start.polls + PollsIn(events)
    && w.labels == start.labels + LabelsIn(events)
  }

  /** Every reply and every label in `events` is the environment's next one. */
  ghost predicate FromEnv(env: Env, start: World, events: seq<ClientEvent>) {
    |events| == 0 ||
    var front := events[..|events| - 1];
    && FromEnv(env, start, front)
    && match events[|events| - 1]
       case SendReplied(reply) => reply == env.sendReply(start.sends + SendsIn(front))
       case PollReplied(reply) => reply == env.pollReply(start.polls + PollsIn(front))
       case NewLabel(l) => l == env.freshLabel(start.labels + LabelsIn(front))
       case _ => true
  }

  /** From `d` to `after` by protocol events, with the replies this environment gives. */
  ghost predicate Traces(env: Env, start: World, d: Delivery, events: seq<ClientEvent>, w: World, after: Delivery) {
    && RunClient(d, events) == Some(after)
    && FromEnv(env, start, events)
    && Counts(start, events, w)
  }

  lemma TraceStarts(env: Env, start: World, d: Delivery, w: World)
    requires SameAnswers(start, w)
    ensures Traces(env, start, d, [], w, d)
  {}

  /** Only time has passed. */
  predicate SameAnswers(a: World, b: World) {
    a.sends == b.sends && a.polls == b.polls && a.labels == b.labels
  }

  lemma TraceWaits(env: Env, start: World, d: Delivery, events: seq<ClientEvent>, w: World, after: Delivery,
                   later: World)
    requires Traces(env, start, d, events, w, after) && SameAnswers(w, later)
    ensures Traces(env, start, d, events, later, after)
  {}

  predicate Meets(env: Env, w: World, e: ClientEvent, later: World) {
    match e
    case SendReplied(reply) => reply == env.sendReply(w.sends) && SameAnswers(later, w.(sends := w.sends + 1))
    case PollReplied(reply) => reply == env.pollReply(w.polls) && SameAnswers(later, w.(polls := w.polls + 1))
    case NewLabel(l) => l == env.freshLabel(w.labels) && SameAnswers(later, w.(labels := w.labels + 1))
    case _ => SameAnswers(later, w)
  }

  lemma TraceOn(env: Env, start: World, d: Delivery, events: seq<ClientEvent>, w: World, m: Delivery,
                e: ClientEvent, later: World)
    requires Traces(env, start, d, events, w, m) && ClientEnabled(m, e) && Meets(env, w, e, later)
    ensures Traces(env, start, d, events + [e], later, ClientStep(m, e))
  {
    assert (events + [e])[..|events|] == events;
    hide ClientStep;
  }

  lemma {:induction false} TraceJoins(env: Env, start: World, d: Delivery, a: seq<ClientEvent>, m: World, mid: Delivery,
                                      b: seq<ClientEvent>, w: World, after: Delivery)
    requires Traces(env, start, d, a, m, mid) && Traces(env, m, mid, b, w, after)
    ensures Traces(env, start, d, a + b, w, after)
  {
    if |b| == 0 {
      assert a + b == a;
    } else {
      var front, e := b[..|b| - 1], b[|b| - 1];
      var before := w.(sends := m.sends + SendsIn(front), polls := m.polls + PollsIn(front),
                       labels := m.labels + LabelsIn(front));
      TraceJoins(env, start, d, a, m, mid, front, before, RunClient(mid, front).value);
      assert (a + b)[..|a + b| - 1] == a + front;
      assert (a + b)[|a + b| - 1] == e;
      hide ClientStep, ClientEnabled;
    }
  }

  /** The last decision was to stop for want of time. */
  predicate GaveUp(events: seq<ClientEvent>) {
    |events| > 0 && events[|events| - 1].GiveUp?
  }
}
