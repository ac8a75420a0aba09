/** The login limiter of the personnel portal: a fixed-window counter per key with an eviction sweep. */
module Limiter {

  datatype Attempt = Attempt(count: int, reset: int)

  type Store = map<string, Attempt>

  /** Go's zero time, which lies before every clock reading. */
  const ZERO_TIME: int := 0

  const SWEEP_THRESHOLD: nat := 10_000

  datatype Config = Config(limit: int, window: int)

  function Lookup(m: Store, key: string): (a: Attempt) {
    if key in m then m[key] else Attempt(0, ZERO_TIME)
  }

  /** The window that an attempt at time `now` is counted in. */
  function Current(c: Config, m: Store, key: string, now: int): (a: Attempt) {
    if now > Lookup(m, key).reset then Attempt(0, now + c.window) else Lookup(m, key)
  }

  predicate Grants(c: Config, m: Store, key: string, now: int) {
    Current(c, m, key, now).count < c.limit
  }

  function AfterAttempt(c: Config, m: Store, key: string, now: int): (m': Store) {
    var a := Current(c, m, key, now);
    if Grants(c, m, key, now) then m[key := Attempt(a.count + 1, a.reset)] else m
  }

  function Unswept(m: Store, now: int): (m': Store) {
    map k | k in m && now <= m[k].reset :: m[k]
  }

  function Swept(m: Store, now: int, threshold: nat): (m': Store) {
    if |m| > threshold then Unswept(m, now) else m
  }

  class LoginLimiter {
    var attempts: Store
    const config: Config

    constructor (limit: int, window: int)
      ensures attempts == map[] && config == Config(limit, window)
    {
      attempts := map[];
      config := Config(limit, window);
    }

    method Allow(key: string, now: int) returns (granted: bool)
      requires now > ZERO_TIME
      modifies this`attempts
      ensures granted == Grants(config, Swept(old(attempts), now, SWEEP_THRESHOLD), key, now)
      ensures attempts == AfterAttempt(config, Swept(old(attempts), now, SWEEP_THRESHOLD), key, now)
    {
      if |attempts| > SWEEP_THRESHOLD {
        var candidates := attempts.Keys;
        while candidates != {}
          invariant candidates <= old(attempts).Keys
          invariant attempts == map k | k in old(attempts) && (k in candidates || now <= old(attempts)[k].reset)
                                  :: old(attempts)[k]
        {
          var candidate :| candidate in candidates;
          if now > attempts[candidate].reset {
            attempts := attempts - {candidate};
          }
          candidates := candidates - {candidate};
        }
      }
      var attempt := if key in attempts then attempts[key] else Attempt(0, ZERO_TIME);
      if now > attempt.reset {
        attempt := Attempt(0, now + config.window);
      }
      if attempt.count >= config.limit {
        return false;
      }
      attempts := attempts[key := Attempt(attempt.count + 1, attempt.reset)];
      return true;
    }

    method Reset(key: string)
      modifies this`attempts
      ensures attempts == old(attempts) - {key}
    {
      attempts := attempts - {key};
    }
  }

  datatype Call = Allow(key: string, now: int) | Reset(key: string)

  datatype Decision = Granted | Denied | Cleared

  /** How the limiter evicts: above a number of entries, or never. */
  datatype Eviction = Never | Above(threshold: nat)

  function Evicted(e: Eviction, m: Store, now: int): (m': Store) {
    match e
    case Never => m
    case Above(threshold) => Swept(m, now, threshold)
  }

  /** The store after a run of calls on a new limiter. */
  function StoreAfter(c: Config, e: Eviction, calls: seq<Call>): (m: Store) {
    if calls == [] then map[] else
      var m := StoreAfter(c, e, calls[..|calls| - 1]);
      match calls[|calls| - 1]
      case Allow(key, now) => AfterAttempt(c, Evicted(e, m, now), key, now)
      case Reset(key) => m - {key}
  }

  function AnswerTo(c: Config, e: Eviction, m: Store, call: Call): (a: Decision) {
    match call
    case Allow(key, now) => if Grants(c, Evicted(e, m, now), key, now) then Granted else Denied
    case Reset(_) => Cleared
  }

  function Answers(c: Config, e: Eviction, calls: seq<Call>): (a: seq<Decision>)
    ensures |a| == |calls|
  {
    if calls == [] then [] else
      var earlier := calls[..|calls| - 1];
      Answers(c, e, earlier) + [AnswerTo(c, e, StoreAfter(c, e, earlier), calls[|calls| - 1])]
  }

  /** The latest clock reading of a run. */
  function Clock(calls: seq<Call>): (t: int) {
    if calls == [] then ZERO_TIME
    else match calls[|calls| - 1]
      case Allow(_, now) => now
      case Reset(_) => Clock(calls[..|calls| - 1])
  }

  predicate NondecreasingClock(calls: seq<Call>) {
    calls == [] ||
    (var earlier := calls[..|calls| - 1];
     NondecreasingClock(earlier) &&
     (calls[|calls| - 1].Allow? ==> calls[|calls| - 1].now > ZERO_TIME && Clock(earlier) <= calls[|calls| - 1].now))
  }

  /** Two stores that differ only in entries expired by the given time. */
  ghost predicate Agree(m: Store, full: Store, now: int) {
    && m.Keys <= full.Keys
    && (forall k :: k in m ==> m[k] == full[k])
    && (forall k :: k in full && k !in m ==> full[k].reset <= now)
  }

  lemma AgreeAfterAllow(c: Config, e: Eviction, m: Store, full: Store, before: int, key: string, now: int)
    requires Agree(m, full, before) && before <= now && now > ZERO_TIME
    requires forall k :: k in full && k !in m ==> full[k].reset < now
    ensures Grants(c, Evicted(e, m, now), key, now) == Grants(c, full, key, now)
    ensures Agree(AfterAttempt(c, Evicted(e, m, now), key, now), AfterAttempt(c, full, key, now), now)
    ensures forall k :: k in AfterAttempt(c, full, key, now) && k !in AfterAttempt(c, Evicted(e, m, now), key, now)
              ==> AfterAttempt(c, full, key, now)[k].reset < now
  {
    var kept := Evicted(e, m, now);
    assert Current(c, kept, key, now) == Current(c, full, key, now);
  }

  /** Evicting at any threshold never changes an answer. */
  lemma {:induction false} SweepIsUnobservable(c: Config, e: Eviction, calls: seq<Call>)
    requires NondecreasingClock(calls)
    ensures Answers(c, e, calls) == Answers(c, Never, calls)
    ensures Agree(StoreAfter(c, e, calls), StoreAfter(c, Never, calls), Clock(calls))
    ensures forall k :: k in StoreAfter(c, Never, calls) && k !in StoreAfter(c, e, calls)
              ==> StoreAfter(c, Never, calls)[k].reset < Clock(calls)
  {
    if calls != [] {
      var earlier := calls[..|calls| - 1];
      SweepIsUnobservable(c, e, earlier);
      match calls[|calls| - 1]
      case Allow(key, now) =>
        AgreeAfterAllow(c, e, StoreAfter(c, e, earlier), StoreAfter(c, Never, earlier), Clock(earlier), key, now);
      case Reset(_) =>
    }
  }

  /** Number of attempts for a key that were granted within a closed time interval. */
  function GrantCount(calls: seq<Call>, answers: seq<Decision>, key: string, lo: int, hi: int): (n: nat)
    requires |calls| == |answers|
  {
    if calls == [] then 0 else
      var last := calls[|calls| - 1];
      GrantCount(calls[..|calls| - 1], answers[..|calls| - 1], key, lo, hi)
      + if answers[|calls| - 1] == Granted && last.Allow? && last.key == key && lo <= last.now <= hi then 1 else 0
  }

  predicate NeverReset(calls: seq<Call>, key: string) {
    forall i :: 0 <= i < |calls| ==> calls[i] != Reset(key)
  }

  ghost predicate SlidingInv(c: Config, m: Store, clock: int, key: string, lo: int, hi: int, granted: nat) {
    if key in m then
      var start := m[key].reset - c.window;
      && 1 <= m[key].count <= c.limit
      && start <= clock
      && (clock < lo ==> granted == 0)
      && (start < lo ==> granted <= m[key].count - 1)
      && (lo <= start <= hi ==> granted <= c.limit - 1 + m[key].count)
      && granted <= 2 * c.limit - 1
    else
      granted == 0
  }

  lemma {:induction false} SlidingInvHolds(c: Config, calls: seq<Call>, key: string, lo: int, hi: int)
    requires NondecreasingClock(calls) && NeverReset(calls, key)
    requires hi - lo <= c.window
    ensures SlidingInv(c, StoreAfter(c, Never, calls), Clock(calls), key, lo, hi,
                       GrantCount(calls, Answers(c, Never, calls), key, lo, hi))
  {
    if calls != [] {
      var earlier := calls[..|calls| - 1];
      SlidingInvHolds(c, earlier, key, lo, hi);
      assert Answers(c, Never, calls)[..|calls| - 1] == Answers(c, Never, earlier);
      var last := calls[|calls| - 1];
      assert last != Reset(key);
    }
  }

  /** Every closed interval as long as the window holds at most 2 * limit - 1 granted attempts, sweep or no sweep. */
  lemma SlidingBound(c: Config, e: Eviction, calls: seq<Call>, key: string, lo: int, hi: int)
    requires NondecreasingClock(calls) && NeverReset(calls, key)
    requires hi - lo <= c.window
    ensures GrantCount(calls, Answers(c, e, calls), key, lo, hi) <= if c.limit <= 0 then 0 else 2 * c.limit - 1
  {
    SweepIsUnobservable(c, e, calls);
    SlidingInvHolds(c, calls, key, lo, hi);
  }

  /** In the limiter's own current window exactly `count` attempts were granted, so at most `limit`. */
  lemma {:induction false} OwnWindowBound(c: Config, calls: seq<Call>, key: string)
    requires NondecreasingClock(calls) && NeverReset(calls, key) && c.window >= 0
    requires key in StoreAfter(c, Never, calls)
    ensures var a := StoreAfter(c, Never, calls)[key];
            && GrantCount(calls, Answers(c, Never, calls), key, a.reset - c.window, a.reset) == a.count
            && a.count <= c.limit
            && a.reset - c.window <= Clock(calls)
    ensures forall lo, hi :: StoreAfter(c, Never, calls)[key].reset < lo
              ==> GrantCount(calls, Answers(c, Never, calls), key, lo, hi) == 0
  {
    var earlier := calls[..|calls| - 1];
    var last := calls[|calls| - 1];
    assert Answers(c, Never, calls)[..|calls| - 1] == Answers(c, Never, earlier);
    assert last != Reset(key);
    if key in StoreAfter(c, Never, earlier) {
      OwnWindowBound(c, earlier, key);
    } else {
      UngrantedKey(c, earlier, key);
    }
  }

  lemma {:induction false} UngrantedKey(c: Config, calls: seq<Call>, key: string)
    requires NondecreasingClock(calls) && NeverReset(calls, key)
    requires key !in StoreAfter(c, Never, calls)
    ensures forall lo, hi :: GrantCount(calls, Answers(c, Never, calls), key, lo, hi) == 0
  {
    if calls != [] {
      var earlier := calls[..|calls| - 1];
      assert Answers(c, Never, calls)[..|calls| - 1] == Answers(c, Never, earlier);
      assert calls[|calls| - 1] != Reset(key);
      UngrantedKey(c, earlier, key);
    }
  }

  lemma OneMoreAllow(c: Config, earlier: seq<Call>, key: string, now: int, lo: int, hi: int)
    ensures var calls := earlier + [Allow(key, now)];
            && Clock(calls) == now
            && StoreAfter(c, Never, calls) == AfterAttempt(c, StoreAfter(c, Never, earlier), key, now)
            && GrantCount(calls, Answers(c, Never, calls), key, lo, hi)
               == GrantCount(earlier, Answers(c, Never, earlier), key, lo, hi)
                  + if Grants(c, StoreAfter(c, Never, earlier), key, now) && lo <= now <= hi then 1 else 0
  {
    var calls := earlier + [Allow(key, now)];
    assert calls[..|calls| - 1] == earlier;
    assert Answers(c, Never, calls)[..|calls| - 1] == Answers(c, Never, earlier);
  }

  lemma OneMoreGranted(c: Config, earlier: seq<Call>, key: string, count: nat, reset: int, now: int, lo: int, hi: int)
    requires StoreAfter(c, Never, earlier) == map[key := Attempt(count, reset)]
    requires lo <= now <= hi && (if now <= reset then count else 0) < c.limit
    ensures var calls := earlier + [Allow(key, now)];
            && StoreAfter(c, Never, calls)
               == map[key := if now <= reset then Attempt(count + 1, reset) else Attempt(1, now + c.window)]
            && GrantCount(calls, Answers(c, Never, calls), key, lo, hi)
               == GrantCount(earlier, Answers(c, Never, earlier), key, lo, hi) + 1
  {
    OneMoreAllow(c, earlier, key, now, lo, hi);
  }

  lemma OneMoreOrdered(earlier: seq<Call>, key: string, now: int)
    requires NondecreasingClock(earlier) && NeverReset(earlier, key)
    requires Clock(earlier) <= now && now > ZERO_TIME
    ensures var calls := earlier + [Allow(key, now)];
            NondecreasingClock(calls) && NeverReset(calls, key) && Clock(calls) == now
  {
    var calls := earlier + [Allow(key, now)];
    assert calls[..|calls| - 1] == earlier;
  }

  /** Calls that leave an open window behind, with so many grants in the counted interval. */
  ghost predicate Standing(c: Config, calls: seq<Call>, key: string, count: nat, reset: int, now: int, lo: int, hi: int,
                           grants: int) {
    && NondecreasingClock(calls) && NeverReset(calls, key) && Clock(calls) <= now
    && StoreAfter(c, Never, calls) == map[key := Attempt(count, reset)]
    && GrantCount(calls, Answers(c, Never, calls), key, lo, hi) == grants
  }

  lemma OneMoreRepeated(c: Config, earlier: seq<Call>, key: string, count: nat, reset: int, now: int, lo: int, hi: int,
                        grants: int)
    requires Standing(c, earlier, key, count, reset, now, lo, hi, grants)
    requires now > ZERO_TIME && lo <= now <= hi && now <= reset && count < c.limit
    ensures Standing(c, earlier + [Allow(key, now)], key, count + 1, reset, now, lo, hi, grants + 1)
  {
    OneMoreOrdered(earlier, key, now);
    OneMoreGranted(c, earlier, key, count, reset, now, lo, hi);
  }

  /** Repeating an attempt inside an open window with room for n more. */
  lemma {:induction false} Repeat(c: Config, earlier: seq<Call>, key: string, count: nat, reset: int,
                                  now: int, n: nat, lo: int, hi: int, grants: int)
    returns (calls: seq<Call>)
    requires Standing(c, earlier, key, count, reset, now, lo, hi, grants)
    requires now > ZERO_TIME && lo <= now <= hi && now <= reset && count + n <= c.limit
    ensures Standing(c, calls, key, count + n, reset, now, lo, hi, grants + n)
  {
    if n == 0 {
      calls := earlier;
    } else {
      calls := Repeat(c, earlier, key, count, reset, now, n - 1, lo, hi, grants);
      OneMoreRepeated(c, calls, key, count + n - 1, reset, now, lo, hi, grants + n - 1);
      calls := calls + [Allow(key, now)];
    }
  }

  /** The first attempt on a new limiter, just before the interval that is counted. */
  lemma Opening(c: Config, key: string)
    requires c.limit >= 1 && c.window >= 1
    ensures var calls := [Allow(key, 1)];
            && NondecreasingClock(calls) && NeverReset(calls, key) && Clock(calls) == 1
            && StoreAfter(c, Never, calls) == map[key := Attempt(1, c.window + 1)]
            && GrantCount(calls, Answers(c, Never, calls), key, 2, c.window + 2) == 0
  {
    OneMoreOrdered([], key, 1);
    OneMoreAllow(c, [], key, 1, 2, c.window + 2);
    assert [] + [Allow(key, 1)] == [Allow(key, 1)];
  }

  /** One attempt opens a window and the others of that window follow as it closes. */
  lemma LateBurst(c: Config, key: string) returns (calls: seq<Call>)
    requires c.limit >= 1 && c.window >= 1
    ensures Standing(c, calls, key, c.limit, c.window + 1, c.window + 1, 2, c.window + 2, c.limit - 1)
  {
    Opening(c, key);
    var start := [Allow(key, 1)];
    calls := Repeat(c, start, key, 1, c.window + 1, c.window + 1, c.limit - 1, 2, c.window + 2, 0);
  }

  /**
   * The sliding bound is reached for every limit, so no smaller one holds: a late burst, then a whole new window's
   * worth.
   */
  lemma SlidingBoundIsTight(c: Config, key: string) returns (calls: seq<Call>, lo: int, hi: int)
    requires c.limit >= 1 && c.window >= 1
    ensures NondecreasingClock(calls) && NeverReset(calls, key) && hi - lo == c.window
    ensures GrantCount(calls, Answers(c, Above(SWEEP_THRESHOLD), calls), key, lo, hi) == 2 * c.limit - 1
  {
    lo, hi := 2, c.window + 2;
    calls := LateBurst(c, key);
    OneMoreOrdered(calls, key, hi);
    OneMoreGranted(c, calls, key, c.limit, c.window + 1, hi, lo, hi);
    calls := Repeat(c, calls + [Allow(key, hi)], key, 1, 2 * c.window + 2, hi, c.limit - 1, lo, hi, c.limit);
    SweepIsUnobservable(c, Above(SWEEP_THRESHOLD), calls);
  }
}
