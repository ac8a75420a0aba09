/**
 * The dispatcher's poll is a run of the state machine: one claim, then one callback and one settling write per event.
 */
module Polling {
  import opened Models
  import opened Outbox
  import opened Leases
  import opened Dispatch

  /** The clock after the first `done` replies. */
  function ClockAfter(start: int, replies: seq<Exchange>, done: nat): (now: int)
    requires done <= |replies|
  {
    if done == 0 then start else replies[done - 1].now
  }

  ghost predicate InOrder(start: int, replies: seq<Exchange>) {
    forall k :: 0 <= k < |replies| ==> ClockAfter(start, replies, k) <= replies[k].now
  }

  /** A reply for every event, in the order of time, with the delay that its verdict asks for. */
  ghost predicate Replied(c: Config, start: int, events: seq<OutboxRow>, replies: seq<Exchange>, delays: seq<int>) {
    && |events| <= |replies| && |delays| == |events| && InOrder(start, replies)
    && forall k :: 0 <= k < |events| ==> DelayOf(c, events[k].attempts, Classify(replies[k].answer), delays[k])
  }

  lemma NextReply(c: Config, start: int, events: seq<OutboxRow>, replies: seq<Exchange>, delays: seq<int>, k: nat)
    requires Replied(c, start, events, replies, delays) && k < |events|
    ensures DelayOf(c, events[k].attempts, Classify(replies[k].answer), delays[k])
    ensures ClockAfter(start, replies, k) <= replies[k].now
  {
  }

  /** The worker with the first `done` events behind it. */
  ghost predicate Remaining(s: State, w: nat, events: seq<OutboxRow>, done: nat) {
    && w < |s.workers| && done <= |events|
    && if done == |events| then s.workers[w].Idle?
       else s.workers[w].Working? && !s.workers[w].answered && s.workers[w].events == events[done..]
  }

  /** The table and the worker after some deliveries of a batch. */
  ghost predicate Reached(c: Config, n: nat, steps: seq<Step>, w: nat, events: seq<OutboxRow>, done: nat,
                          rows: seq<OutboxRow>, clock: int) {
    var s := Run(c, Unbounded, n, steps);
    Remaining(s, w, events, done) && s.rows == rows && s.clock == clock
  }

  /** Dispatchers other than `w` are where they were. */
  ghost predicate OthersAlike(s: State, s': State, w: nat) {
    |s'.workers| == |s.workers| && forall v :: 0 <= v < |s.workers| && v != w ==> s'.workers[v] == s.workers[v]
  }

  lemma OneDelivery(c: Config, n: nat, before: seq<Step>, w: nat, events: seq<OutboxRow>, done: nat,
                    rows: seq<OutboxRow>, clock: int, reply: Exchange, delay: int) returns (steps: seq<Step>)
    requires Reached(c, n, before, w, events, done, rows, clock) && done < |events| && clock <= reply.now
    requires DelayOf(c, events[done].attempts, Classify(reply.answer), delay)
    ensures before <= steps && OthersAlike(Run(c, Unbounded, n, before), Run(c, Unbounded, n, steps), w)
    ensures Reached(c, n, steps, w, events, done + 1, AfterReply(c, rows, events[done], reply, delay), reply.now)
  {
    var s := Run(c, Unbounded, n, before);
    NextOfRun(c, Unbounded, n, before, Tick(reply.now));
    steps := before + [Tick(reply.now)];
    var s1 := Run(c, Unbounded, n, steps);
    assert s1 == s.(clock := reply.now);
    NextOfRun(c, Unbounded, n, steps, Post(w, reply.answer));
    steps := steps + [Post(w, reply.answer)];
    var s2 := Run(c, Unbounded, n, steps);
    assert s2 == Posted(s1, w, reply.answer);
    var last := if reply.stored then Settle(w, delay) else GiveUp(w);
    NextOfRun(c, Unbounded, n, steps, last);
    steps := steps + [last];
    assert Run(c, Unbounded, n, steps)
           == if reply.stored then SettledBy(c, s2, w, delay)
              else s2.(workers := s2.workers[w := Advanced(s2.workers[w], s2.clock)]);
    assert events[done..][1..] == events[done + 1..];
  }

  lemma OneReplyMore(c: Config, rows: seq<OutboxRow>, events: seq<OutboxRow>, clock: int, replies: seq<Exchange>,
                     delays: seq<int>, k: nat)
    requires k < |events| && k < |replies| && k < |delays|
    ensures Drained(c, rows, events, replies, delays, k + 1)
            == AfterReply(c, Drained(c, rows, events, replies, delays, k), events[k], replies[k], delays[k])
    ensures ClockAfter(clock, replies, k + 1) == replies[k].now
  {
  }

  /** After every delivery the table is the one that the delivery loop of the dispatcher leaves. */
  lemma {:induction false} LoopIsRun(c: Config, n: nat, before: seq<Step>, w: nat, events: seq<OutboxRow>,
                                     rows: seq<OutboxRow>,
                                     clock: int, replies: seq<Exchange>, delays: seq<int>, done: nat)
    returns (steps: seq<Step>)
    requires Reached(c, n, before, w, events, 0, rows, clock) && done <= |events|
    requires Replied(c, clock, events, replies, delays)
    ensures before <= steps && OthersAlike(Run(c, Unbounded, n, before), Run(c, Unbounded, n, steps), w)
    ensures Reached(c, n, steps, w, events, done, Drained(c, rows, events, replies, delays, done),
                    ClockAfter(clock, replies, done))
  {
    if done == 0 {
      steps := before;
    } else {
      var last := done - 1;
      var earlier := LoopIsRun(c, n, before, w, events, rows, clock, replies, delays, last);
      NextReply(c, clock, events, replies, delays, last);
      OneReplyMore(c, rows, events, clock, replies, delays, last);
      steps := OneDelivery(c, n, earlier, w, events, last, Drained(c, rows, events, replies, delays, last),
                           ClockAfter(clock, replies, last), replies[last], delays[last]);
    }
  }

  lemma ClaimIsRun(c: Config, n: nat, before: seq<Step>, w: nat, picked: seq<nat>)
    requires var s := Run(c, Unbounded, n, before);
             && w < |s.workers| && s.workers[w].Idle?
             && IsFirstDue(Recovered(s.rows, s.clock, c.staleAfter), s.clock, CLAIM_LIMIT, picked)
    ensures var s := Run(c, Unbounded, n, before);
            var claimed := Claimed(Recovered(s.rows, s.clock, c.staleAfter), s.clock, picked);
            && OthersAlike(s, Run(c, Unbounded, n, before + [Poll(w, picked)]), w)
            && Reached(c, n, before + [Poll(w, picked)], w, HandedOut(claimed, picked), 0, claimed, s.clock)
  {
    var s := Run(c, Unbounded, n, before);
    NextOfRun(c, Unbounded, n, before, Poll(w, picked));
    assert Run(c, Unbounded, n, before + [Poll(w, picked)]) == Polled(c, s, w, picked);
  }

  /**
   * What Dispatcher.DeliverDue leaves in the table is what some continuation of the run before it reaches, with its own
   * dispatcher between polls again and every other one where it was: so polls of several dispatchers follow one
   * another.
   */
  lemma PollIsRun(c: Config, n: nat, before: seq<Step>, w: nat, picked: seq<nat>, replies: seq<Exchange>,
                  delays: seq<int>)
    returns (steps: seq<Step>)
    requires var s := Run(c, Unbounded, n, before);
             var claimed := Claimed(Recovered(s.rows, s.clock, c.staleAfter), s.clock, picked);
             && w < |s.workers| && s.workers[w].Idle?
             && IsFirstDue(Recovered(s.rows, s.clock, c.staleAfter), s.clock, CLAIM_LIMIT, picked)
             && Replied(c, s.clock, HandedOut(claimed, picked), replies, delays)
    ensures before <= steps
    ensures var s, s' := Run(c, Unbounded, n, before), Run(c, Unbounded, n, steps);
            var claimed := Claimed(Recovered(s.rows, s.clock, c.staleAfter), s.clock, picked);
            && s'.rows == Drained(c, claimed, HandedOut(claimed, picked), replies, delays, |picked|)
            && s'.clock == ClockAfter(s.clock, replies, |picked|) && s'.workers == s.workers
  {
    var s := Run(c, Unbounded, n, before);
    var claimed := Claimed(Recovered(s.rows, s.clock, c.staleAfter), s.clock, picked);
    ClaimIsRun(c, n, before, w, picked);
    steps := LoopIsRun(c, n, before + [Poll(w, picked)], w, HandedOut(claimed, picked), claimed, s.clock, replies,
                       delays, |picked|);
    SameWorkers(s, Run(c, Unbounded, n, steps), w);
  }

  lemma SameWorkers(s: State, s': State, w: nat)
    requires OthersAlike(s, s', w) && w < |s.workers| && s.workers[w].Idle? && s'.workers[w].Idle?
    ensures s'.workers == s.workers
  {
  }
}
