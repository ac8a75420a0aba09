/**
 * What serializability gives callers: exclusive locks, one effect per key, safe cancellation, timelines in id order.
 */
module Concurrency {
  import opened Text
  import opened Models
  import opened Store
  import opened Operations
  import opened Runs
  import opened Interleaving
  import opened Serializability
  import Replays
  import RegistryRuns

  lemma OneHolder(s: State, v: nat, w: nat, id: nat)
    requires AllApart(s) && v < |s.workers| && w < |s.workers| && s.workers[v].Holds(id) && s.workers[w].Holds(id)
    ensures v == w
  {
    assert v != w ==> Apart(s.workers[v], s.workers[w]);
  }

  lemma LockedRowIsCommitted(warehouse: Address, t: Tables, worker: Worker)
    requires worker.Locked? && Sound(warehouse, t, worker)
    ensures worker.id in t.shipments && t.shipments[worker.id] == worker.seen
    ensures ChangeOf(worker.planned, worker.seen, worker.drawn.now).Change?
            ==> RowAffected(t, worker.id, worker.planned, worker.seen)
  {
    if ChangeOf(worker.planned, worker.seen, worker.drawn.now).Change? {
      GuardedUpdateFindsItsRow(warehouse, t, worker);
    }
  }

  lemma LocksOfSaneState(warehouse: Address, s: State, v: nat, w: nat, id: nat)
    requires Sane(warehouse, s) && v < |s.workers| && w < |s.workers| && s.workers[v].Holds(id)
    requires s.workers[w].Holds(id)
    ensures v == w
    ensures s.workers[v].Locked? ==>
              && id in s.history.tables.shipments && s.history.tables.shipments[id] == s.workers[v].seen
              && (ChangeOf(s.workers[v].planned, s.workers[v].seen, s.workers[v].drawn.now).Change? ==>
                    RowAffected(s.history.tables, id, s.workers[v].planned, s.workers[v].seen))
  {
    OneHolder(s, v, w, id);
    if s.workers[v].Locked? {
      LockedRowIsCommitted(warehouse, s.history.tables, s.workers[v]);
    }
  }

  /** At every point of every interleaving row locks are exclusive, and a locked row is the committed one. */
  lemma LocksAreExclusive(warehouse: Address, n: nat, steps: seq<Step>, v: nat, w: nat, id: nat)
    requires var s := Interleaved(warehouse, n, steps);
             v < |s.workers| && w < |s.workers| && s.workers[v].Holds(id) && s.workers[w].Holds(id)
    ensures v == w
    ensures var s := Interleaved(warehouse, n, steps);
            s.workers[v].Locked? ==>
              && id in s.history.tables.shipments && s.history.tables.shipments[id] == s.workers[v].seen
              && (ChangeOf(s.workers[v].planned, s.workers[v].seen, s.workers[v].drawn.now).Change? ==>
                    RowAffected(s.history.tables, id, s.workers[v].planned, s.workers[v].seen))
  {
    InterleavingIsOrderly(warehouse, n, steps);
    LocksOfSaneState(warehouse, Interleaved(warehouse, n, steps), v, w, id);
  }

  // ----- one effect per key -----

  /** The source and key that a call's event is recorded under. */
  function EffectKey(q: Request): (k: (string, string)) {
    match q
    case Create(_, key, source, _) => (source, key + "/handed-over")
    case CreateReturn(_, key, source, _) => (source, key + "/created")
    case Cancel(_, key, _, source) => (source, key)
    case Update(call) => (call.meta.source, call.meta.key)
  }

  lemma DraftKey(q: Request, d: Draft, warehouse: Address, t: Tables, f: Draws)
    requires PlainRequest(q) && Drafted(warehouse, t, q, f, d)
    ensures (d.record.source, d.record.key) == EffectKey(q)
  {
    if d.kind != Creation {
      Replays.RecordUnderCallersKey(CallFor(q, t.shipments[d.id].status).value, t.shipments[d.id], f.now);
    }
  }

  lemma EffectKeyIsTrimmed(q: Request)
    requires PlainRequest(q)
    ensures TrimSpace(EffectKey(q).0) == EffectKey(q).0 && TrimSpace(EffectKey(q).1) == EffectKey(q).1
    ensures EffectKey(q).1 != ""
  {
    if q.Create? || q.CreateReturn? {
      TrimSpaceIsIdempotent(q.key);
      RegistryRuns.SuffixedKey(q.key, if q.Create? then "/handed-over" else "/created");
    }
  }

  /** A transaction records its event under the key of its call. */
  lemma RecordedKey(warehouse: Address, t: Tables, worker: Worker)
    requires worker.HasRow() && PlainRequest(worker.request)
    requires Drafted(warehouse, t, worker.request, worker.drawn, worker.draft)
    ensures var e := worker.Write().event; (e.source, e.key) == EffectKey(worker.request)
  {
    DraftKey(worker.request, worker.draft, warehouse, t, worker.drawn);
    EffectKeyIsTrimmed(worker.request);
  }

  lemma EventsAfterStep(warehouse: Address, s: State, step: Step)
    ensures Interleaving.Next(warehouse, s, step).history.tables.events
            == if step.CommitAll? && Enabled(s, step)
              then s.history.tables.events + [s.workers[step.worker].Write().event]
               else s.history.tables.events
  {
  }

  lemma QueuedIsDrafted(warehouse: Address, s: State, w: nat)
    requires AllSound(warehouse, s) && w < |s.workers| && s.workers[w].Queued?
    ensures PlainRequest(s.workers[w].request)
    ensures Drafted(warehouse, s.history.tables, s.workers[w].request, s.workers[w].drawn, s.workers[w].draft)
  {
    assert Sound(warehouse, s.history.tables, s.workers[w]);
    assert RowsSound(warehouse, s.history.tables, s.workers[w]);
  }

  /** The keys of the committed calls, in commit order. */
  function KeysOf(events: seq<Event>): (keys: seq<(string, string)>) {
    if events == [] then []
    else
      match events[|events| - 1]
      case Call(q, _) => KeysOf(events[..|events| - 1]) + [EffectKey(q)]
      case Deliver(_) => KeysOf(events[..|events| - 1])
  }

  function EventKeys(recorded: seq<EventRow>): (keys: seq<(string, string)>)
    ensures |keys| == |recorded|
  {
    seq(|recorded|, i requires 0 <= i < |recorded| => (recorded[i].source, recorded[i].key))
  }

  lemma KeysOfOneMore(events: seq<Event>, e: Event)
    ensures KeysOf(events + [e]) == if e.Call? then KeysOf(events) + [EffectKey(e.request)] else KeysOf(events)
  {
    assert (events + [e])[..|events|] == events;
  }

  lemma EventKeysOfOneMore(recorded: seq<EventRow>, e: EventRow)
    ensures EventKeys(recorded + [e]) == EventKeys(recorded) + [(e.source, e.key)]
  {
  }

  lemma KeysAfterStep(warehouse: Address, s: State, step: Step)
    requires AllSound(warehouse, s)
    ensures EventKeys(Interleaving.Next(warehouse, s, step).history.tables.events)
            == EventKeys(s.history.tables.events) + KeyAt(s, step)
  {
    EventsAfterStep(warehouse, s, step);
    if step.CommitAll? && Enabled(s, step) {
      QueuedIsDrafted(warehouse, s, step.worker);
      RecordedKey(warehouse, s.history.tables, s.workers[step.worker]);
      EventKeysOfOneMore(s.history.tables.events, s.workers[step.worker].Write().event);
    }
  }

  lemma InterleavingIsSound(warehouse: Address, n: nat, steps: seq<Step>)
    ensures AllSound(warehouse, Interleaved(warehouse, n, steps))
  {
    InterleavingIsOrderly(warehouse, n, steps);
  }

  /** The key of the call that a step commits, if it commits one. */
  ghost function KeyAt(s: State, step: Step): (keys: seq<(string, string)>) {
    if step.CommitAll? && Enabled(s, step) then [EffectKey(s.workers[step.worker].request)] else []
  }

  lemma SerialKeysAfterStep(warehouse: Address, n: nat, steps: seq<Step>)
    requires steps != []
    ensures var earlier := steps[..|steps| - 1];
            KeysOf(Serial(warehouse, n, steps))
            == KeysOf(Serial(warehouse, n, earlier)) + KeyAt(Interleaved(warehouse, n, earlier), steps[|steps| - 1])
  {
    var earlier := steps[..|steps| - 1];
    var e := EventOf(Interleaved(warehouse, n, earlier), steps[|steps| - 1]);
    if e.Some? {
      KeysOfOneMore(Serial(warehouse, n, earlier), e.value);
    }
  }

  /** The recorded events carry exactly the keys of the committed calls. */
  lemma {:induction false} EventsCarryKeys(warehouse: Address, n: nat, steps: seq<Step>)
    ensures EventKeys(Interleaved(warehouse, n, steps).history.tables.events) == KeysOf(Serial(warehouse, n, steps))
  {
    if steps != [] {
      var earlier, step := steps[..|steps| - 1], steps[|steps| - 1];
      EventsCarryKeys(warehouse, n, earlier);
      InterleavingIsSound(warehouse, n, earlier);
      KeysAfterStep(warehouse, Interleaved(warehouse, n, earlier), step);
      SerialKeysAfterStep(warehouse, n, steps);
    }
  }

  /**
   * At most one effect per key: in every interleaving no two committed calls share a source and an event key, so of any
   * racing or repeated calls under one key at most one changes the tables.
   */
  lemma OneCommitPerKey(warehouse: Address, n: nat, steps: seq<Step>, i: nat, j: nat)
    requires var keys := KeysOf(Serial(warehouse, n, steps)); i < |keys| && j < |keys| && keys[i] == keys[j]
    ensures i == j
  {
    EventsCarryKeys(warehouse, n, steps);
    Serializable(warehouse, n, steps);
    var recorded := Interleaved(warehouse, n, steps).history.tables.events;
    assert EventKeys(recorded)[i] == (recorded[i].source, recorded[i].key);
    assert EventKeys(recorded)[j] == (recorded[j].source, recorded[j].key);
    Replays.OneEffectPerKey(warehouse, Serial(warehouse, n, steps), i, j);
  }

  /** No transaction is under way. */
  predicate Quiet(s: State) {
    forall w :: 0 <= w < |s.workers| ==> s.workers[w].Idle?
  }

  /** Steps of transactions only, all of them begun for calls with one effect key. */
  predicate Racing(steps: seq<Step>, key: (string, string)) {
    forall k :: 0 <= k < |steps| ==> !steps[k].Dispatch? && (steps[k].Begin? ==> EffectKey(steps[k].request) == key)
  }

  /** A transaction under way is for a call that the race has begun. */
  ghost predicate BegunIn(race: seq<Step>, worker: Worker) {
    worker.Idle?
    || exists k ::
         0 <= k < |race| && race[k].Begin? && race[k].request == worker.request && race[k].drawn == worker.drawn
  }

  ghost predicate AllBegunIn(race: seq<Step>, s: State) {
    forall w :: 0 <= w < |s.workers| ==> BegunIn(race, s.workers[w])
  }

  lemma BegunInLonger(race: seq<Step>, step: Step, worker: Worker, next: Worker)
    requires BegunIn(race, worker)
    requires next.Idle? || (!worker.Idle? && next.request == worker.request && next.drawn == worker.drawn)
    ensures BegunIn(race + [step], next)
  {
    if !next.Idle? {
      var k :| 0 <= k < |race| && race[k].Begin? && race[k].request == worker.request && race[k].drawn == worker.drawn;
      assert (race + [step])[k] == race[k];
    }
  }

  lemma WorkerKeepsCall(warehouse: Address, t: Tables, worker: Worker, step: Step)
    requires !step.Begin? && !step.CommitAll? && !step.Dispatch?
    ensures var next := WorkerAfter(warehouse, t, worker, step);
            next.Idle? || (!worker.Idle? && next.request == worker.request && next.drawn == worker.drawn)
  {
    if worker.Begun? {
      CheckedKeepsCall(warehouse, t, worker);
    }
  }

  lemma CheckedKeepsCall(warehouse: Address, t: Tables, worker: Worker)
    requires worker.Begun?
    ensures var next := CheckedWorker(warehouse, t, worker);
            next.Idle? || (next.request == worker.request && next.drawn == worker.drawn)
  {
  }

  lemma BegunKeepsCall(t: Tables, q: Request, f: Draws)
    ensures var next := BeginWorker(t, q, f); next.Idle? || (next.request == q && next.drawn == f)
  {
  }

  lemma OwnStepIsBegun(warehouse: Address, t: Tables, race: seq<Step>, worker: Worker, step: Step)
    requires BegunIn(race, worker) && !step.CommitAll? && !step.Dispatch?
    ensures BegunIn(race + [step], WorkerAfter(warehouse, t, worker, step))
  {
    if step.Begin? {
      BegunKeepsCall(t, step.request, step.drawn);
      assert (race + [step])[|race|] == step;
    } else {
      WorkerKeepsCall(warehouse, t, worker, step);
      BegunInLonger(race, step, worker, WorkerAfter(warehouse, t, worker, step));
    }
  }

  lemma NextIsBegun(warehouse: Address, s: State, race: seq<Step>, step: Step)
    requires AllBegunIn(race, s) && !step.Dispatch?
    ensures AllBegunIn(race + [step], Interleaving.Next(warehouse, s, step))
  {
    forall w | 0 <= w < |s.workers| ensures BegunIn(race + [step], s.workers[w]) {
      BegunInLonger(race, step, s.workers[w], s.workers[w]);
    }
    if Enabled(s, step) && !step.CommitAll? {
      OwnStepIsBegun(warehouse, s.history.tables, race, s.workers[step.worker], step);
    }
  }

  /** What a race leaves behind: nothing, or what one of the calls it began would leave alone. */
  ghost predicate ActsAsOne(warehouse: Address, before: History, after: History, race: seq<Step>) {
    after == before
    || exists k :: 0 <= k < |race| && race[k].Begin?
                   && after == Runs.Next(warehouse, before, Call(race[k].request, race[k].drawn))
  }

  /** Either nothing has been committed since the race began, or one of its calls has. */
  ghost predicate RaceState(warehouse: Address, n: nat, earlier: seq<Step>, race: seq<Step>, key: (string, string)) {
    var before, s := Interleaved(warehouse, n, earlier), Interleaved(warehouse, n, earlier + race);
    && AllBegunIn(race, s)
    && (s.history != before.history ==>
          key in KeysOf(Serial(warehouse, n, earlier + race)) && ActsAsOne(warehouse, before.history, s.history, race))
  }

  lemma CommitAddsKey(warehouse: Address, n: nat, steps: seq<Step>, step: Step)
    requires step.CommitAll? && Enabled(Interleaved(warehouse, n, steps), step)
    ensures KeysOf(Serial(warehouse, n, steps + [step]))
            == KeysOf(Serial(warehouse, n, steps))
              + [EffectKey(Interleaved(warehouse, n, steps).workers[step.worker].request)]
  {
    assert (steps + [step])[..|steps|] == steps;
    SerialKeysAfterStep(warehouse, n, steps + [step]);
  }

  /** The call that a race commits carries the key of the race. */
  lemma CommitterIsBegun(s: State, race: seq<Step>, step: Step, key: (string, string))
    requires AllBegunIn(race, s) && Racing(race, key) && step.CommitAll? && Enabled(s, step)
    ensures EffectKey(s.workers[step.worker].request) == key
  {
    assert BegunIn(race, s.workers[step.worker]);
  }

  lemma NoSecondCommit(warehouse: Address, n: nat, steps: seq<Step>, step: Step, key: (string, string))
    requires key in KeysOf(Serial(warehouse, n, steps))
    requires step.CommitAll? && Enabled(Interleaved(warehouse, n, steps), step)
    ensures EffectKey(Interleaved(warehouse, n, steps).workers[step.worker].request) != key
  {
    var keys := KeysOf(Serial(warehouse, n, steps));
    var i :| 0 <= i < |keys| && keys[i] == key;
    CommitAddsKey(warehouse, n, steps, step);
    if EffectKey(Interleaved(warehouse, n, steps).workers[step.worker].request) == key {
      OneCommitPerKey(warehouse, n, steps + [step], i, |keys|);
    }
  }

  lemma OnlyCommitsWrite(warehouse: Address, s: State, step: Step)
    requires !step.Dispatch? && !(step.CommitAll? && Enabled(s, step))
    ensures Interleaving.Next(warehouse, s, step).history == s.history
  {
  }

  lemma OneStepMore(warehouse: Address, n: nat, steps: seq<Step>, step: Step)
    ensures Interleaved(warehouse, n, steps + [step])
            == Interleaving.Next(warehouse, Interleaved(warehouse, n, steps), step)
  {
    assert (steps + [step])[..|steps|] == steps;
  }

  lemma CommitRunsItsCall(warehouse: Address, s: State, step: Step)
    requires Orderly(warehouse, s) && step.CommitAll? && Enabled(s, step)
    ensures var worker := s.workers[step.worker];
            Interleaving.Next(warehouse, s, step).history
              == Runs.Next(warehouse, s.history, Call(worker.request, worker.drawn))
  {
    StepIsAtomic(warehouse, s, step);
  }

  lemma BegunCallActsAsOne(warehouse: Address, before: History, after: History, race: seq<Step>, worker: Worker)
    requires BegunIn(race, worker) && !worker.Idle?
    requires after == Runs.Next(warehouse, before, Call(worker.request, worker.drawn))
    ensures ActsAsOne(warehouse, before, after, race)
  {
  }

  lemma CommitActsAsOne(warehouse: Address, s: State, race: seq<Step>, step: Step)
    requires Orderly(warehouse, s) && step.CommitAll? && Enabled(s, step) && AllBegunIn(race, s)
    ensures ActsAsOne(warehouse, s.history, Interleaving.Next(warehouse, s, step).history, race)
  {
    CommitRunsItsCall(warehouse, s, step);
    BegunCallActsAsOne(warehouse, s.history, Interleaving.Next(warehouse, s, step).history, race,
                       s.workers[step.worker]);
  }

  lemma ActsAsOneLonger(warehouse: Address, before: History, after: History, race: seq<Step>, step: Step)
    requires ActsAsOne(warehouse, before, after, race)
    ensures ActsAsOne(warehouse, before, after, race + [step])
  {
    if after != before {
      var k :| 0 <= k < |race| && race[k].Begin?
        && after == Runs.Next(warehouse, before, Call(race[k].request, race[k].drawn));
      assert (race + [step])[k] == race[k];
    }
  }

  /** The first commit of a race. */
  lemma RaceCommits(warehouse: Address, n: nat, earlier: seq<Step>, race: seq<Step>, step: Step, key: (string, string))
    requires AllBegunIn(race, Interleaved(warehouse, n, earlier + race)) && Racing(race, key)
    requires step.CommitAll? && Enabled(Interleaved(warehouse, n, earlier + race), step)
    requires Interleaved(warehouse, n, earlier + race).history == Interleaved(warehouse, n, earlier).history
    ensures key in KeysOf(Serial(warehouse, n, earlier + race + [step]))
    ensures ActsAsOne(warehouse, Interleaved(warehouse, n, earlier).history,
                      Interleaving.Next(warehouse, Interleaved(warehouse, n, earlier + race), step).history,
                      race + [step])
  {
    var s := Interleaved(warehouse, n, earlier + race);
    InterleavingIsOrderly(warehouse, n, earlier + race);
    CommitterIsBegun(s, race, step, key);
    CommitActsAsOne(warehouse, s, race, step);
    ActsAsOneLonger(warehouse, s.history, Interleaving.Next(warehouse, s, step).history, race, step);
    CommitAddsKey(warehouse, n, earlier + race, step);
  }

  lemma NoCommitAfterTheFirst(warehouse: Address, n: nat, earlier: seq<Step>, race: seq<Step>, step: Step,
                              key: (string, string))
    requires RaceState(warehouse, n, earlier, race, key) && Racing(race, key)
    requires step.CommitAll? && Enabled(Interleaved(warehouse, n, earlier + race), step)
    ensures Interleaved(warehouse, n, earlier + race).history == Interleaved(warehouse, n, earlier).history
  {
    var s := Interleaved(warehouse, n, earlier + race);
    CommitterIsBegun(s, race, step, key);
    if s.history != Interleaved(warehouse, n, earlier).history {
      NoSecondCommit(warehouse, n, earlier + race, step, key);
    }
  }

  /** Any other step of a race leaves the tables and the committed keys as they were. */
  lemma RaceWaits(warehouse: Address, n: nat, earlier: seq<Step>, race: seq<Step>, step: Step, key: (string, string))
    requires RaceState(warehouse, n, earlier, race, key)
    requires !step.Dispatch? && !(step.CommitAll? && Enabled(Interleaved(warehouse, n, earlier + race), step))
    ensures var before, s := Interleaved(warehouse, n, earlier), Interleaved(warehouse, n, earlier + race);
            var after := Interleaving.Next(warehouse, s, step);
            after.history != before.history ==>
              key in KeysOf(Serial(warehouse, n, earlier + race + [step]))
              && ActsAsOne(warehouse, before.history, after.history, race + [step])
  {
    var before, s := Interleaved(warehouse, n, earlier), Interleaved(warehouse, n, earlier + race);
    OnlyCommitsWrite(warehouse, s, step);
    if s.history != before.history {
      ActsAsOneLonger(warehouse, before.history, s.history, race, step);
      assert (earlier + race + [step])[..|earlier + race|] == earlier + race;
      SerialKeysAfterStep(warehouse, n, earlier + race + [step]);
    }
  }

  lemma RaceGoesOn(warehouse: Address, n: nat, earlier: seq<Step>, race: seq<Step>, step: Step, key: (string, string))
    requires RaceState(warehouse, n, earlier, race, key) && Racing(race, key) && !step.Dispatch?
    ensures RaceState(warehouse, n, earlier, race + [step], key)
  {
    var s := Interleaved(warehouse, n, earlier + race);
    assert earlier + (race + [step]) == earlier + race + [step];
    OneStepMore(warehouse, n, earlier + race, step);
    NextIsBegun(warehouse, s, race, step);
    if step.CommitAll? && Enabled(s, step) {
      NoCommitAfterTheFirst(warehouse, n, earlier, race, step, key);
      RaceCommits(warehouse, n, earlier, race, step, key);
    } else {
      RaceWaits(warehouse, n, earlier, race, step, key);
    }
  }

  lemma {:induction false} RaceHolds(warehouse: Address, n: nat, earlier: seq<Step>, race: seq<Step>,
                                     key: (string, string))
    requires Quiet(Interleaved(warehouse, n, earlier)) && Racing(race, key)
    ensures RaceState(warehouse, n, earlier, race, key)
  {
    if race == [] {
      assert earlier + race == earlier;
    } else {
      var shorter, step := race[..|race| - 1], race[|race| - 1];
      RaceHolds(warehouse, n, earlier, shorter, key);
      assert race == shorter + [step];
      RaceGoesOn(warehouse, n, earlier, shorter, step, key);
    }
  }

  /**
   * Racing or repeated calls under one key leave all five tables as they were, or as one of the calls that the race
   * began would leave them alone.
   */
  lemma RacesActAsOneCall(warehouse: Address, n: nat, earlier: seq<Step>, race: seq<Step>, key: (string, string))
    requires Quiet(Interleaved(warehouse, n, earlier)) && Racing(race, key)
    ensures var before, after := Interleaved(warehouse, n, earlier).history,
            Interleaved(warehouse, n, earlier + race).history;
            after == before
            || exists k :: 0 <= k < |race| && race[k].Begin?
                           && after == Runs.Next(warehouse, before, Call(race[k].request, race[k].drawn))
  {
    RaceHolds(warehouse, n, earlier, race, key);
  }

  /**
   * Cancellations race safely: a shipment ends cancelled only if it was never received, and is cancelled once at most.
   */
  lemma CancelIsSafe(warehouse: Address, n: nat, steps: seq<Step>, id: nat)
    requires id in Interleaved(warehouse, n, steps).history.tables.shipments
    requires !Interleaved(warehouse, n, steps).history.tables.shipments[id].origin.isReturn
    ensures var t := Interleaved(warehouse, n, steps).history.tables;
            && (t.shipments[id].status == Cancelled ==> Changes(StatusesOf(t, id)) == [AwaitingReceipt, Cancelled])
            && Entering(StatusesOf(t, id), Cancelled) + Entering(StatusesOf(t, id), ReturnToSenderRequested) <= 1
  {
    Serializable(warehouse, n, steps);
    CancelledWasNeverReceived(warehouse, Serial(warehouse, n, steps), id);
  }

  // ----- timelines in id order -----

  /** Event rows are numbered in the order in which they are inserted, committed or not. */
  ghost predicate Numbered(s: State, step: Step) {
    step.RecordEvent? && Enabled(s, step) ==>
      forall i :: 0 <= i < |s.history.tables.events|
        ==> s.history.tables.events[i].id < s.workers[step.worker].drawn.eventRowId
  }

  ghost predicate AllNumbered(warehouse: Address, n: nat, steps: seq<Step>) {
    forall k :: 0 <= k < |steps| ==> Numbered(Interleaved(warehouse, n, steps[..k]), steps[k])
  }

  /** The events of one shipment have ascending ids. */
  ghost predicate Ascending(events: seq<EventRow>) {
    forall i, j :: 0 <= i < j < |events| && events[i].shipmentId == events[j].shipmentId ==> events[i].id < events[j].id
  }

  /** An uncommitted event comes after every committed event of its shipment. */
  ghost predicate Latest(events: seq<EventRow>, worker: Worker) {
    worker.HasEvent() ==>
      forall i :: 0 <= i < |events| && events[i].shipmentId == worker.draft.id
        ==> events[i].id < worker.drawn.eventRowId
  }

  ghost predicate InIdOrder(s: State) {
    && Ascending(s.history.tables.events)
    && forall w :: 0 <= w < |s.workers| ==> Latest(s.history.tables.events, s.workers[w])
  }

  lemma LatestAfterCommit(events: seq<EventRow>, other: Worker, worker: Worker)
    requires Latest(events, worker) && other.Queued? && Apart(other, worker)
    ensures Latest(events + [other.Write().event], worker)
  {
    assert other.Holds(other.draft.id);
    assert worker.HasRow() ==> worker.Holds(worker.draft.id);
  }

  lemma AscendingAfterCommit(events: seq<EventRow>, worker: Worker)
    requires Ascending(events) && worker.Queued? && Latest(events, worker)
    ensures Ascending(events + [worker.Write().event])
  {
    assert worker.Write().event.shipmentId == worker.draft.id && worker.Write().event.id == worker.drawn.eventRowId;
  }

  lemma CommitKeepsIdOrder(events: seq<EventRow>, workers: seq<Worker>, w: nat)
    requires Ascending(events) && w < |workers| && workers[w].Queued?
    requires forall v :: 0 <= v < |workers| ==> Latest(events, workers[v])
    requires forall v :: 0 <= v < |workers| && v != w ==> Apart(workers[w], workers[v])
    ensures var events' := events + [workers[w].Write().event];
            Ascending(events') && forall v :: 0 <= v < |workers| && v != w ==> Latest(events', workers[v])
  {
    AscendingAfterCommit(events, workers[w]);
    forall v | 0 <= v < |workers| && v != w ensures Latest(events + [workers[w].Write().event], workers[v]) {
      LatestAfterCommit(events, workers[w], workers[v]);
    }
  }

  lemma OwnStepIsLatest(warehouse: Address, s: State, step: Step)
    requires Enabled(s, step) && Numbered(s, step) && !step.CommitAll? && !step.Dispatch?
    requires Latest(s.history.tables.events, s.workers[step.worker])
    ensures Latest(s.history.tables.events, WorkerAfter(warehouse, s.history.tables, s.workers[step.worker], step))
  {
    EventsOnlyFromRecord(warehouse, s.history.tables, s.workers[step.worker], step);
  }

  /** With the committed events as they are, only the stepping worker has to be looked at. */
  lemma OwnStepKeepsIdOrder(warehouse: Address, s: State, step: Step)
    requires InIdOrder(s) && Enabled(s, step) && Numbered(s, step) && !step.CommitAll? && !step.Dispatch?
    ensures InIdOrder(Interleaving.Next(warehouse, s, step))
  {
    OwnStepIsLatest(warehouse, s, step);
  }

  lemma CommitStepKeepsIdOrder(warehouse: Address, s: State, w: nat)
    requires AllApart(s) && InIdOrder(s) && Enabled(s, CommitAll(w))
    ensures InIdOrder(Interleaving.Next(warehouse, s, CommitAll(w)))
  {
    CommitKeepsIdOrder(s.history.tables.events, s.workers, w);
    EventsAfterStep(warehouse, s, CommitAll(w));
    assert Interleaving.Next(warehouse, s, CommitAll(w)).workers == s.workers[w := Idle];
  }

  lemma StepKeepsIdOrder(warehouse: Address, s: State, step: Step)
    requires AllApart(s) && InIdOrder(s) && Numbered(s, step)
    ensures InIdOrder(Interleaving.Next(warehouse, s, step))
  {
    if Enabled(s, step) && !step.Dispatch? {
      if step.CommitAll? {
        CommitStepKeepsIdOrder(warehouse, s, step.worker);
      } else {
        OwnStepKeepsIdOrder(warehouse, s, step);
      }
    }
  }

  /** Only RecordEvent gives a transaction an event, and QueueRow keeps it. */
  lemma EventsOnlyFromRecord(warehouse: Address, t: Tables, worker: Worker, step: Step)
    ensures var next := WorkerAfter(warehouse, t, worker, step);
            next.HasEvent() && !step.RecordEvent? ==>
              worker.HasEvent() && next.draft == worker.draft && next.drawn == worker.drawn
    ensures var next := WorkerAfter(warehouse, t, worker, step);
            next.HasEvent() && step.RecordEvent? ==> next.drawn == worker.drawn
  {
    if worker.Begun? {
      CheckedHoldsNothing(warehouse, t, worker);
    }
    if step.Begin? {
      NewWorkersHoldNothing(warehouse, t, worker, step.request, step.drawn);
    }
  }

  /**
   * When rows are numbered as they are inserted, commits never put a shipment's events out of id order: the row lock
   * covers the insertion. So the timeline by id is the timeline in commit order.
   */
  lemma {:induction false} TimelinesInIdOrder(warehouse: Address, n: nat, steps: seq<Step>)
    requires AllNumbered(warehouse, n, steps)
    ensures InIdOrder(Interleaved(warehouse, n, steps))
  {
    if steps != [] {
      var earlier := steps[..|steps| - 1];
      assert AllNumbered(warehouse, n, earlier) by {
        forall k | 0 <= k < |earlier| ensures Numbered(Interleaved(warehouse, n, earlier[..k]), earlier[k]) {
          assert earlier[..k] == steps[..k];
        }
      }
      TimelinesInIdOrder(warehouse, n, earlier);
      InterleavingIsOrderly(warehouse, n, earlier);
      StepKeepsIdOrder(warehouse, Interleaved(warehouse, n, earlier), steps[|steps| - 1]);
    }
  }
}
