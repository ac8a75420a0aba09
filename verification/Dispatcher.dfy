/** The dispatcher of one process, run by itself: the statements it executes against the outbox table. */
module Dispatch {
  import opened Models
  import opened Backoff
  import opened Outbox

  /**
   * How a callback went: its answer, the clock when it is settled, the random number of a retry's jitter, and whether
   * the settling write reaches the database.
   */
  datatype Exchange = Exchange(answer: Answer, now: int, draw: nat, stored: bool)

  /** The table after one event was delivered, and settled if the write succeeds. */
  function AfterReply(c: Config, rows: seq<OutboxRow>, event: OutboxRow, reply: Exchange,
                      delay: int): (r: seq<OutboxRow>) {
    if reply.stored then Settled(c, rows, event, Classify(reply.answer), reply.now, delay) else rows
  }

  /** The table after the first `n` of the claimed events were delivered and settled in turn. */
  function Drained(c: Config, rows: seq<OutboxRow>, events: seq<OutboxRow>, replies: seq<Exchange>, delays: seq<int>,
                   n: nat)
    : (r: seq<OutboxRow>)
    requires n <= |events| && n <= |replies| && n <= |delays|
  {
    if n == 0 then rows
    else AfterReply(c, Drained(c, rows, events, replies, delays, n - 1), events[n - 1], replies[n - 1], delays[n - 1])
  }

  lemma {:induction false} DrainedPrefix(c: Config, rows: seq<OutboxRow>, events: seq<OutboxRow>,
                                         replies: seq<Exchange>,
                                         delays: seq<int>, more: seq<int>, n: nat)
    requires n <= |events| && n <= |replies| && n <= |delays|
    ensures Drained(c, rows, events, replies, delays + more, n) == Drained(c, rows, events, replies, delays, n)
  {
    if n > 0 {
      DrainedPrefix(c, rows, events, replies, delays, more, n - 1);
    }
  }

  /** An earlier next attempt, or the same one and a smaller id. */
  predicate Earlier(a: OutboxRow, b: OutboxRow) {
    if a.nextAttemptAt == b.nextAttemptAt then a.id < b.id else a.nextAttemptAt < b.nextAttemptAt
  }

  /** A claimed row: it was due or stuck, and now is in delivery with one more attempt. */
  predicate TakenUp(row: OutboxRow, row': OutboxRow, now: int) {
    && ((row.status == Pending && row.nextAttemptAt <= now) || row.status == Processing)
    && row'.id == row.id && row'.message == row.message
    && row'.status == Processing && row'.attempts == row.attempts + 1 && row'.updatedAt == now
  }

  /** What settling makes of the row of an event, answer by answer. */
  ghost predicate SettledAsAnswered(c: Config, event: OutboxRow, reply: Exchange, row: OutboxRow, row': OutboxRow) {
    && row'.id == row.id && row'.message == row.message && row'.attempts == row.attempts && row'.updatedAt == reply.now
    && var a := reply.answer;
       if a.Response? && 200 <= a.code < 300 then row'.status == DeliveredToShop && row'.nextAttemptAt == reply.now
       else if a.NotSent? || (a.TransportError? && a.cancelled)
               || (a.Response? && a.code in {400, 401, 403, 404, 422})
               || event.attempts >= c.maxAttempts then
         row'.status == Failed && row'.nextAttemptAt == reply.now
       else
         row'.status == Pending && IsBackoff(c.base, event.attempts, row'.nextAttemptAt - reply.now)
  }

  class Dispatcher {
    /** The outbox table, in insertion order. */
    var rows: seq<OutboxRow>
    const config: Config

    constructor (config: Config, rows: seq<OutboxRow>)
      requires config.Valid() && IdsDistinct(rows)
      ensures Valid() && this.rows == rows && this.config == config
    {
      this.config := config;
      this.rows := rows;
    }

    ghost predicate Valid()
      reads this
    {
      config.Valid() && IdsDistinct(rows)
    }

    method RecoverStale(now: int)
      requires Valid()
      modifies this`rows
      ensures Valid() && rows == Recovered(old(rows), now, config.staleAfter)
      ensures forall i :: 0 <= i < |rows| ==>
                var row := old(rows)[i];
                rows[i] == if row.status == Processing && row.updatedAt <= now - config.staleAfter
                           then row.(status := Pending, nextAttemptAt := now, updatedAt := now)
                           else row
    {
      for i := 0 to |rows|
        invariant |rows| == |old(rows)|
        invariant forall j :: 0 <= j < i ==> rows[j] == RecoveredRow(old(rows)[j], now, config.staleAfter)
        invariant forall j :: i <= j < |rows| ==> rows[j] == old(rows)[j]
      {
        if Stale(rows[i], now, config.staleAfter) {
          rows := rows[i := rows[i].(status := Pending, nextAttemptAt := now, updatedAt := now)];
        }
      }
    }

    /** The earliest due row that is not picked yet. */
    method NextDue(now: int, picked: seq<nat>) returns (found: bool, least: nat)
      requires Valid()
      ensures found ==> least < |rows| && Due(rows[least], now) && least !in picked
      ensures forall i :: 0 <= i < |rows| && Due(rows[i], now) && i !in picked ==>
                found && (i == least || Before(rows[least], rows[i]))
    {
      found, least := false, 0;
      for i := 0 to |rows|
        invariant found ==> least < i && Due(rows[least], now) && least !in picked
        invariant forall j :: 0 <= j < i && Due(rows[j], now) && j !in picked ==>
                    found && (j == least || Before(rows[least], rows[j]))
      {
        if Due(rows[i], now) && i !in picked && (!found || Before(rows[i], rows[least])) {
          found, least := true, i;
        }
      }
    }

    /** The first due rows in (next attempt, id) order. */
    method FindDue(now: int, limit: nat) returns (picked: seq<nat>)
      requires Valid()
      ensures IsFirstDue(rows, now, limit, picked)
      ensures |picked| <= limit
      ensures forall k :: 0 <= k < |picked| ==>
                picked[k] < |rows| && rows[picked[k]].status == Pending && rows[picked[k]].nextAttemptAt <= now
      ensures forall k, l :: 0 <= k < l < |picked| ==> Earlier(rows[picked[k]], rows[picked[l]])
      ensures forall i ::
                0 <= i < |rows| && rows[i].status == Pending && rows[i].nextAttemptAt <= now && i !in picked ==>
                |picked| == limit && forall k :: 0 <= k < |picked| ==> Earlier(rows[picked[k]], rows[i])
    {
      picked := [];
      var more := true;
      while more && |picked| < limit
        invariant |picked| <= limit && PickedInOrder(rows, now, picked)
        invariant forall i, k :: 0 <= i < |rows| && Due(rows[i], now) && i !in picked && 0 <= k < |picked| ==>
                    Before(rows[picked[k]], rows[i])
        invariant !more ==> forall i :: 0 <= i < |rows| && Due(rows[i], now) ==> i in picked
        decreases more, limit - |picked|
      {
        var found, least := NextDue(now, picked);
        if found {
          picked := picked + [least];
        }
        more := found;
      }
    }

    method ClaimDueEvents(now: int, limit: nat) returns (events: seq<OutboxRow>, ghost picked: seq<nat>)
      requires Valid()
      modifies this`rows
      ensures Valid() && IsFirstDue(Recovered(old(rows), now, config.staleAfter), now, limit, picked)
      ensures rows == Claimed(Recovered(old(rows), now, config.staleAfter), now, picked)
      ensures events == HandedOut(rows, picked)
      ensures |rows| == |old(rows)| && |events| == |picked|
      ensures forall k :: 0 <= k < |picked| ==>
                && picked[k] < |rows| && events[k] == rows[picked[k]]
                && TakenUp(old(rows)[picked[k]], rows[picked[k]], now)
      ensures forall i :: 0 <= i < |rows| && i !in picked && old(rows)[i].status != Processing ==>
                rows[i] == old(rows)[i]
    {
      RecoverStale(now);
      var order := FindDue(now, limit);
      picked := order;
      events := ClaimPicked(order, now);
    }

    /** The updates of a claim, one selected row after the other. */
    method ClaimPicked(order: seq<nat>, now: int) returns (events: seq<OutboxRow>)
      requires Valid() && PickedInOrder(rows, now, order)
      modifies this`rows
      ensures Valid() && rows == Claimed(old(rows), now, order) && events == HandedOut(rows, order)
    {
      ghost var found := rows;
      events := [];
      for k := 0 to |order|
        invariant |rows| == |found| && |events| == k
        invariant forall i :: 0 <= i < |rows| ==>
                    rows[i] == if i in order[..k] then ClaimedRow(found[i], now) else found[i]
        invariant forall l :: 0 <= l < k ==> events[l] == ClaimedRow(found[order[l]], now)
      {
        PickedIsNext(found, now, order, k);
        var row := rows[order[k]];
        rows := rows[order[k] := row.(status := Processing, attempts := row.attempts + 1, updatedAt := now)];
        events := events + [rows[order[k]]];
      }
      assert order[..|order|] == order;
    }

    /** One UPDATE that matches on the id; it may not reach the database. */
    method Write(id: nat, status: OutboxStatus, nextAttemptAt: int, now: int, stored: bool)
      requires Valid()
      modifies this`rows
      ensures Valid() && |rows| == |old(rows)|
      ensures forall i :: 0 <= i < |rows| ==>
                rows[i] == if stored && old(rows)[i].id == id
                           then old(rows)[i].(status := status, nextAttemptAt := nextAttemptAt, updatedAt := now)
                           else old(rows)[i]
    {
      if !stored {
        return;
      }
      for i := 0 to |rows|
        invariant |rows| == |old(rows)|
        invariant forall j :: 0 <= j < i ==>
                    rows[j] == if old(rows)[j].id == id
                               then old(rows)[j].(status := status, nextAttemptAt := nextAttemptAt, updatedAt := now)
                               else old(rows)[j]
        invariant forall j :: i <= j < |rows| ==> rows[j] == old(rows)[j]
      {
        if rows[i].id == id {
          rows := rows[i := rows[i].(status := status, nextAttemptAt := nextAttemptAt, updatedAt := now)];
        }
      }
    }

    method MarkDelivered(event: OutboxRow, now: int, stored: bool)
      requires Valid()
      modifies this`rows
      ensures Valid() && rows == if stored then Settled(config, old(rows), event, Success, now, 0) else old(rows)
    {
      Write(event.id, DeliveredToShop, now, now, stored);
    }

    method MarkRetry(event: OutboxRow, retryable: bool, now: int, draw: nat, stored: bool) returns (ghost delay: int)
      requires Valid()
      modifies this`rows
      ensures Valid() && DelayOf(config, event.attempts, if retryable then Retryable else Permanent, delay)
      ensures rows
              == if stored
              then Settled(config, old(rows), event, if retryable then Retryable else Permanent, now, delay)
                      else old(rows)
    {
      var status, nextAttemptAt := Failed, now;
      delay := 0;
      if retryable && event.attempts < config.maxAttempts {
        status := Pending;
        var wait := BackoffDelay(config.base, event.attempts, draw);
        nextAttemptAt := nextAttemptAt + wait;
        delay := wait;
      }
      Write(event.id, status, nextAttemptAt, now, stored);
    }

    method DeliverOne(event: OutboxRow, reply: Exchange) returns (ghost delay: int)
      requires Valid()
      modifies this`rows
      ensures Valid() && DelayOf(config, event.attempts, Classify(reply.answer), delay)
      ensures rows == AfterReply(config, old(rows), event, reply, delay)
      ensures |rows| == |old(rows)|
      ensures forall i :: 0 <= i < |rows| ==>
                if reply.stored && old(rows)[i].id == event.id
                then SettledAsAnswered(config, event, reply, old(rows)[i], rows[i])
                else rows[i] == old(rows)[i]
    {
      match reply.answer {
        case NotSent => delay := MarkRetry(event, false, reply.now, reply.draw, reply.stored);
        case TransportError(cancelled) => delay := MarkRetry(event, !cancelled, reply.now, reply.draw, reply.stored);
        case Response(code) =>
          if 200 <= code < 300 {
            delay := 0;
            MarkDelivered(event, reply.now, reply.stored);
          } else {
            var permanent := code == 400 || code == 401 || code == 403 || code == 404 || code == 422;
            delay := MarkRetry(event, !permanent, reply.now, reply.draw, reply.stored);
          }
      }
    }

    /** The delivery loop of a poll; a write that fails leaves its row in processing and the loop goes on. */
    method DeliverAll(events: seq<OutboxRow>, replies: seq<Exchange>) returns (ghost delays: seq<int>)
      requires Valid() && |replies| >= |events|
      modifies this`rows
      ensures Valid() && |delays| == |events|
      ensures forall k :: 0 <= k < |events| ==>
                DelayOf(config, events[k].attempts, Classify(replies[k].answer), delays[k])
      ensures rows == Drained(config, old(rows), events, replies, delays, |events|)
    {
      delays := [];
      for k := 0 to |events|
        invariant Valid() && |delays| == k
        invariant forall l :: 0 <= l < k ==> DelayOf(config, events[l].attempts, Classify(replies[l].answer), delays[l])
        invariant rows == Drained(config, old(rows), events, replies, delays, k)
      {
        ghost var delay := DeliverOne(events[k], replies[k]);
        DrainedPrefix(config, old(rows), events, replies, delays, [delay], k);
        delays := delays + [delay];
      }
    }

    /** A whole poll: claim, then deliver and settle every claimed event in turn. */
    method DeliverDue(now: int, replies: seq<Exchange>) returns (ghost picked: seq<nat>, ghost delays: seq<int>)
      requires Valid() && |replies| >= CLAIM_LIMIT
      modifies this`rows
      ensures Valid() && |picked| <= 10
      ensures var recovered := Recovered(old(rows), now, config.staleAfter);
              var claimed := Claimed(recovered, now, picked);
              && IsFirstDue(recovered, now, CLAIM_LIMIT, picked) && |delays| == |picked|
              && var events := HandedOut(claimed, picked);
                 && (forall k :: 0 <= k < |events| ==>
                       DelayOf(config, events[k].attempts, Classify(replies[k].answer), delays[k]))
                 && rows == Drained(config, claimed, events, replies, delays, |events|)
    {
      var events;
      events, picked := ClaimDueEvents(now, CLAIM_LIMIT);
      delays := DeliverAll(events, replies);
    }
  }

  lemma PickedIsNext(rows: seq<OutboxRow>, now: int, picked: seq<nat>, k: nat)
    requires PickedInOrder(rows, now, picked) && k < |picked|
    ensures picked[k] !in picked[..k]
    ensures forall i :: i in picked[..k + 1] <==> i in picked[..k] || i == picked[k]
  {
    PickedIsFresh(rows, now, picked, k);
    assert picked[..k + 1] == picked[..k] + [picked[k]];
  }

  lemma PickedIsFresh(rows: seq<OutboxRow>, now: int, picked: seq<nat>, k: nat)
    requires PickedInOrder(rows, now, picked) && k < |picked|
    ensures picked[k] !in picked[..k]
  {
    if picked[k] in picked[..k] {
      var l :| 0 <= l < k && picked[l] == picked[k];
      PickedOnce(rows, now, picked, l, k);
    }
  }
}
