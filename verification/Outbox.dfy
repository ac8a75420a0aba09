/** What the dispatcher's statements do to the outbox table. Times are nanoseconds. */
module Outbox {
  import opened Models
  import opened Int64
  import opened Backoff

  /** The claim limit of DeliverDue. */
  const CLAIM_LIMIT: nat := 10

  datatype Config = Config(staleAfter: nat, maxAttempts: nat, base: int) {
    /** Configuration loading guarantees the first; the base delay may be zero, and its doubling must fit in 64 bits. */
    predicate Valid() {
      maxAttempts >= 1 && 0 <= base < TWO_62
    }
  }

  // ----- what a callback can come back with -----

  datatype Answer = NotSent | TransportError(cancelled: bool) | Response(code: int)

  datatype Verdict = Success | Retryable | Permanent

  /** Section 15.3 of RFC 9110: 2xx is success. Five client errors are permanent, every other answer is retried. */
  function Classify(a: Answer): (v: Verdict) {
    match a
    case NotSent => Permanent
    case TransportError(cancelled) => if cancelled then Permanent else Retryable
    case Response(code) =>
      if 200 <= code < 300 then Success
      else if code == 400 || code == 401 || code == 403 || code == 404 || code == 422 then Permanent
      else Retryable
  }

  // ----- recovery and claim -----

  predicate Stale(row: OutboxRow, now: int, staleAfter: nat) {
    row.status == Processing && row.updatedAt <= now - staleAfter
  }

  function RecoveredRow(row: OutboxRow, now: int, staleAfter: nat): (r: OutboxRow) {
    if Stale(row, now, staleAfter) then row.(status := Pending, nextAttemptAt := now, updatedAt := now) else row
  }

  function Recovered(rows: seq<OutboxRow>, now: int, staleAfter: nat): (r: seq<OutboxRow>)
    ensures |r| == |rows|
  {
    seq(|rows|, i requires 0 <= i < |rows| => RecoveredRow(rows[i], now, staleAfter))
  }

  predicate Due(row: OutboxRow, now: int) {
    row.status == Pending && row.nextAttemptAt <= now
  }

  /** The order in which due rows are claimed. */
  predicate Before(a: OutboxRow, b: OutboxRow) {
    a.nextAttemptAt < b.nextAttemptAt || (a.nextAttemptAt == b.nextAttemptAt && a.id < b.id)
  }

  ghost predicate PickedInOrder(rows: seq<OutboxRow>, now: int, picked: seq<nat>) {
    && (forall k :: 0 <= k < |picked| ==> picked[k] < |rows| && Due(rows[picked[k]], now))
    && (forall k, l :: 0 <= k < l < |picked| ==> Before(rows[picked[k]], rows[picked[l]]))
  }

  /** A row left out although it is due comes after a full selection. */
  ghost predicate LeftOut(rows: seq<OutboxRow>, limit: nat, picked: seq<nat>, i: nat)
    requires i < |rows| && forall k :: 0 <= k < |picked| ==> picked[k] < |rows|
  {
    |picked| == limit && forall k :: 0 <= k < |picked| ==> Before(rows[picked[k]], rows[i])
  }

  /** `picked` are the indices of the first `limit` due rows, in order. */
  ghost predicate IsFirstDue(rows: seq<OutboxRow>, now: int, limit: nat, picked: seq<nat>) {
    && |picked| <= limit
    && PickedInOrder(rows, now, picked)
    && forall i :: 0 <= i < |rows| && Due(rows[i], now) && i !in picked ==> LeftOut(rows, limit, picked, i)
  }

  function ClaimedRow(row: OutboxRow, now: int): (r: OutboxRow) {
    row.(status := Processing, attempts := row.attempts + 1, updatedAt := now)
  }

  function Claimed(rows: seq<OutboxRow>, now: int, picked: seq<nat>): (r: seq<OutboxRow>)
    ensures |r| == |rows|
  {
    seq(|rows|, i requires 0 <= i < |rows| => if i in picked then ClaimedRow(rows[i], now) else rows[i])
  }

  /** The rows that a claim hands out, as it leaves them in the table. */
  function HandedOut(rows: seq<OutboxRow>, picked: seq<nat>): (events: seq<OutboxRow>)
    requires forall k :: 0 <= k < |picked| ==> picked[k] < |rows|
    ensures |events| == |picked|
  {
    seq(|picked|, k requires 0 <= k < |picked| => rows[picked[k]])
  }

  // ----- settling -----

  /** Whether a verdict puts the row back in the queue. */
  predicate Retries(c: Config, attempts: nat, v: Verdict) {
    v == Retryable && attempts < c.maxAttempts
  }

  /** A retry waits for a backoff delay; no other verdict waits at all. */
  predicate DelayOf(c: Config, attempts: nat, v: Verdict, delay: int) {
    if Retries(c, attempts, v) then IsBackoff(c.base, attempts, delay) else delay == 0
  }

  /** What a settling write makes of a row; the attempts it looks at are those of the claimed copy. */
  function SettledRow(c: Config, row: OutboxRow, attempts: nat, v: Verdict, now: int, delay: int): (r: OutboxRow) {
    if v == Success then row.(status := DeliveredToShop, nextAttemptAt := now, updatedAt := now)
    else if Retries(c, attempts, v) then row.(status := Pending, nextAttemptAt := now + delay, updatedAt := now)
    else row.(status := Failed, nextAttemptAt := now, updatedAt := now)
  }

  /** The write matches on the id alone. */
  function Settled(c: Config, rows: seq<OutboxRow>, event: OutboxRow, v: Verdict, now: int,
                   delay: int): (r: seq<OutboxRow>)
    ensures |r| == |rows|
  {
    seq(|rows|, i requires 0 <= i < |rows| =>
      if rows[i].id == event.id then SettledRow(c, rows[i], event.attempts, v, now, delay) else rows[i])
  }

  // ----- the selection is a function of the table -----

  ghost predicate IdsDistinct(rows: seq<OutboxRow>) {
    forall i, j :: 0 <= i < j < |rows| ==> rows[i].id != rows[j].id
  }

  lemma PickedOnce(rows: seq<OutboxRow>, now: int, picked: seq<nat>, k: nat, l: nat)
    requires PickedInOrder(rows, now, picked) && k < |picked| && l < |picked| && picked[k] == picked[l]
    ensures k == l
  {
    assert k < l ==> Before(rows[picked[k]], rows[picked[l]]);
    assert l < k ==> Before(rows[picked[l]], rows[picked[k]]);
  }

  /** Two selections from one table agree wherever both reach. */
  lemma {:induction false} SelectionsAgree(rows: seq<OutboxRow>, now: int, limit: nat, a: seq<nat>, b: seq<nat>, k: nat)
    requires IsFirstDue(rows, now, limit, a) && IsFirstDue(rows, now, limit, b) && IdsDistinct(rows)
    requires k < |a|
    ensures k < |b| && a[k] == b[k]
    decreases k
  {
    forall l | 0 <= l < k ensures l < |b| && a[l] == b[l] {
      SelectionsAgree(rows, now, limit, a, b, l);
    }
    if k >= |b| || b[k] != a[k] {
      SelectionReaches(rows, now, limit, a, b, k);
      SelectionReaches(rows, now, limit, b, a, k);
    }
  }

  /** The next row of one selection does not come before the next row of another. */
  lemma SelectionReaches(rows: seq<OutboxRow>, now: int, limit: nat, a: seq<nat>, b: seq<nat>, k: nat)
    requires IsFirstDue(rows, now, limit, a) && IsFirstDue(rows, now, limit, b) && IdsDistinct(rows)
    requires k < |a| && k <= |b| && (forall l :: 0 <= l < k ==> a[l] == b[l])
    ensures k < |b| && (b[k] == a[k] || Before(rows[b[k]], rows[a[k]]))
  {
    if a[k] in b {
      var l :| 0 <= l < |b| && b[l] == a[k];
      if l < k {
        PickedOnce(rows, now, a, l, k);
      } else if k < l {
        assert Before(rows[b[k]], rows[b[l]]);
      }
    } else {
      assert LeftOut(rows, limit, b, a[k]);
    }
  }

  /** The claim of a table is determined: any two correct selections are the same sequence. */
  lemma SelectionIsUnique(rows: seq<OutboxRow>, now: int, limit: nat, a: seq<nat>, b: seq<nat>)
    requires IsFirstDue(rows, now, limit, a) && IsFirstDue(rows, now, limit, b) && IdsDistinct(rows)
    ensures a == b
  {
    if |a| > |b| {
      SelectionsAgree(rows, now, limit, a, b, |b|);
    } else if |b| > |a| {
      SelectionsAgree(rows, now, limit, b, a, |a|);
    } else {
      forall k | 0 <= k < |a| ensures a[k] == b[k] {
        SelectionsAgree(rows, now, limit, a, b, k);
      }
    }
  }
}
