# Shipping service: a verified model

The shipping service keeps shipments in five MySQL tables (shipments, items, events, audit, outbox). An E-Commerce
service and the portal's personnel call it to create shipments and returns, to move them along a lifecycle, and to add
events; an outbox dispatcher posts every event back to E-Commerce. This project models that transactional core, the
dispatcher, and three smaller stateful parts of the portal (login limiter, personnel sessions, state gauges) in Dafny
4.11, and proves what they keep over whole runs and under every interleaving. `dafny verify dfyconfig.toml` checks it.

## How the model is built

- **Values and rows** (`Text`, `Int64`, `Models`, `Store`): trimming, byte lengths and 64-bit wrap-around as in Go, the row
  types, the lifecycle graph, the tables with their unique keys, and the lookups.
- **The service, one call at a time** (`Operations`, `Columns`, `Answers`, `Creations`, `Service`): `Operations` says for each
  call which rows it writes, what it replays and how it fails. `Service.ShipmentService` is the imperative code, statement
  by statement over a database object with rollback; each method is proved to leave exactly those tables, and to keep a
  promise that speaks of the request, the tables before and after and the reply only (`Answers`, `Creations`).
- **Runs of atomic calls** (`Writes`, `Invariants`, `Lifecycle`, `Runs`, `Registry`, `RegistryRuns`, `Replays`, `Consumers`, `Progress`,
  `Authority`): what every accepted call has in common, the invariant it keeps, and the consequences for any sequence of calls and deliveries.
- **Interleavings** (`Interleaving`, `Serializability`, `Concurrency`, `Adequacy`): any number of workers whose transactions are split into
  key check, locking read or insertion, event row, outbox row and commit, failing anywhere. The databases that the
  statements of one or more workers can leave are exactly those that atomic calls can leave, so all results about runs
  hold for every interleaving, and the split machine leaves no run out.
- **The dispatcher** (`Backoff`, `Outbox`, `Dispatch`, `Leases`, `Polling`, `Accounting`, `Work`, `Delivery`, `Exclusivity`, `Overlap`,
  `Budget`, `Fairness`, `Pauses`): the imperative dispatcher, and a state machine in which any number of dispatchers share the outbox, crash
  at any point and may fail to write what they settle.
- **Service and dispatchers together** (`EndToEnd`): one database, the calls of the service inserting the outbox rows that
  the dispatchers deliver.
- **The portal** (`Limiter`, `Sessions`, `SessionRuns`, `Credentials`, `OutdatedWrites`, `Gauges`).

Clock readings, random identifiers, auto-increment numbers, jitter and HTTP answers are inputs that no proof restricts,
except where a lemma says so. The nondeterminism of a run is all in its list of steps; a step that is not enabled
changes nothing.

## What turned out false, and when it holds

- **Lease exclusivity** is not a property of the dispatcher alone. All leases are exclusive, and delivered or failed rows
  are never overwritten, exactly if there is one dispatcher or ten deliveries of the longest duration end before rows go
  stale (`Overlap.ExclusiveIffSafe`, `Overlap.FinalIffSafe`). The defaults (10 times 10 s against 2 min) satisfy it.
- **`OUTBOX_MAX_ATTEMPTS` does not bound attempts**, although the repository's README calls it the maximum of delivery
  attempts: recovery of stale rows ignores it. The least bound is the maximum plus the number of recoveries of the row
  (`Accounting.AttemptsAreBounded`, `Budget.BudgetIsTight`).
- **Idempotency keys of 117 to 128 bytes** pass validation, but a first `Create` under one always fails, because its event
  key is twelve bytes longer and events refuse keys over 128. For returns the same holds from 121 bytes on
  (`RegistryRuns.FirstCreateSucceedsIff`, `RegistryRuns.FirstReturnSucceedsIff`).
- **The item comparison** adds quantities in 64 bits. It tells all lists of n lines apart exactly for n up to two; with
  three lines different totals can match (`Items.ExactIffAtMostTwoLines`). It is exact whenever both lists ask for less
  than 2^64 pieces in all (`Items.SameLinesIsExact`).
- **A password change writes a security version computed from the copy it read**, so it can repeat or lower a version.
  In a run of the code every account change raises its user's version exactly if no password write finds a version other
  than the one it read (`SessionRuns.ChangesRaiseIffCurrent`), and in those runs no session outlives a change
  (`SessionRuns.SessionsAreFresh`). From whatever state a run has reached, after any number of outdated writes, all
  continuations without a further one are fresh exactly if no login in flight and no stored session that has missed a
  change holds a version above its user's, or her version while she is active (`OutdatedWrites.StaysFreshIff`). So a
  password write does no harm exactly if no login of that user in flight read a version above the one written, or that one
  while she is active, and no other user was threatened already (`OutdatedWrites.PasswordWriteIsHarmlessIff`). A login
  whose user has changed since its read inserts a stale session exactly if she is active and has come back to the version
  it read (`OutdatedWrites.InsertionBreaksFreshnessIff`, `OutdatedWrites.LateSessionIsStaleIff`). A write guarded by the
  version it read would never do harm (`SessionRuns.FreshIffGuarded`, a remark on a variant that the code is not).
- **The backoff doubling** leaves the 64-bit range from a base delay of 2^62 ns on (`Backoff.DoublingIsExactIff`).
- **The limiter** admits up to 2 * limit - 1 attempts in an interval as long as its window, and no smaller number bounds
  them (`Limiter.SlidingBound`, `Limiter.SlidingBoundIsTight`).
- **A callback omits a delivery estimate that has been cleared.** A consumer that takes an absent estimate for none
  reproduces the shipments (`Runs.CallbacksReproduceShipments`). One that takes it for an unchanged one keeps agreeing over
  a write exactly if the write takes no estimate away (`Consumers.MergingSurvivesIff`), and agrees with a reachable database
  exactly if every shipment without an estimate has never been sent one (`Consumers.MergingReproducesIff`); a creation with
  an estimate and an update without one mislead it (`Consumers.SomeRunMisleads`).
- The repository's README shows outbound shipments starting at `created` and older status names; `Create` inserts them as
  `awaiting_receipt`, and the model follows the code.

## Model

| member | source | states |
|---|---|---|
| Service.ShipmentService.Create | internal/services/shipment_service.go:111-203 | The tables afterwards are those of one atomic creation with rollback. The answer is an outbound row of the order asked for: a new one stored column by column as asked, with its items, event, audit and outbox row, or one that was there before, asked for in the same words; anything else is an error with its reason and leaves the tables alone |
| Service.ShipmentService.CreateReturn | internal/services/shipment_service.go:205-309 | The same for returns: a return of that order and of a stored original with that public id, carried as the original was |
| Service.ShipmentService.Transition | internal/services/shipment_service.go:371-445 | An unreplayed answer names the row with the public id asked for, which went from the expected status to the next along the graph with all its records; a replay names the shipment of the event under the key; an error has its reason and changes nothing |
| Service.ShipmentService.Cancel | internal/services/shipment_service.go:466-485 | Status decides first: the shipment as it is, a refusal, or the transition that status calls for, whose promise then holds |
| Service.ShipmentService.UpdateStops | internal/services/shipment_service.go:487-527 | Only out for delivery; row, event and callback hold exactly the stops asked for, and the answer names that row |
| Service.ShipmentService.UpdateEta | internal/services/shipment_service.go:529-570 | Row, event and callback hold exactly the ordered estimate asked for, both ends or none, and the answer names that row |
| Service.ShipmentService.AddEvent | internal/services/shipment_service.go:572-608 | Records the given event, trimmed, at the given time, leaves the shipment row alone, and answers with the event recorded or the one under the key |
| Service.ShipmentService.RecordEvent | internal/services/shipment_service.go:632-676 | The event, audit and outbox row of one change, in the author's name; the callback has the shipment's public id, order, tracking number and lane, the event's id, type, status and time, and the event's stops and estimate or else the shipment's; or the first reason why they cannot be inserted |
| Service.ShipmentService.AnswerCreate | internal/services/shipment_service.go:700-710 | A stored shipment is replayed exactly if it matches the request, items compared by total per trimmed product, name and SKU |
| Service.ShipmentService.AnswerReturn | internal/services/shipment_service.go:712-725 | The same for a return, with the original's public id compared last |
| Answers.ChangesKeepPromise | internal/services/shipment_service.go:371-608 | Every outcome of a change keeps the promise of its method: the row named, what became of it, its records, and the reason of every error |
| Creations.CreateKeepsPromise | internal/services/shipment_service.go:111-203 | The same for Create |
| Creations.ReturnKeepsPromise | internal/services/shipment_service.go:205-309 | The same for CreateReturn |
| Creations.CancelKeepsPromise | internal/services/shipment_service.go:466-485 | The same for Cancel |
| Columns.CreateIsValidIff | internal/services/shipment_service.go:763-782 | A Create is valid exactly if the row and the items it would store fit their limits and its estimate is ordered |
| Columns.ReturnIsValidIff | internal/services/shipment_service.go:784-797 | A CreateReturn likewise, with the public id of its original |
| Columns.AddressIsValidIff | internal/services/shipment_service.go:812-844 | An address is valid exactly if its tidied form fits, field by field |
| Text.TrimSpaceCuts | internal/services/shipment_service.go:826-829 | Trimming takes white space from both ends and nothing else |
| Text.SpacesAre | internal/services/shipment_service.go:826-829 | White space is the 25 code points of the Unicode property, as in strings.TrimSpace |
| Text.ByteLenIsUtf8 | internal/services/shipment_service.go:826-829 | Lengths count the bytes of the encoding in RFC 3629 |
| Items.KeysTellApart | internal/services/shipment_service.go:727-747 | Items are told apart by product, name and SKU, outer white space aside |
| Items.ItemsMatch | internal/services/shipment_service.go:727-747 | The two loops over a quantity map decide equal length and equal totals per key modulo 2^64 |
| Items.SameLinesIgnoresOrder | internal/services/shipment_service.go:727-747 | Permuted lists always match |
| Items.SameLinesIsEquivalence | internal/services/shipment_service.go:727-747 | The comparison is reflexive, symmetric and transitive |
| Items.SameLinesIsExact | internal/services/shipment_service.go:727-747 | With fewer than 2^64 pieces on both sides, matching means equal totals per key |
| Items.ExactIffAtMostTwoLines | internal/services/shipment_service.go:727-747 | For lists of n valid lines matching means equal totals exactly if n is at most two |
| Items.StoredItemsMatchTheirRequest | internal/services/shipment_service.go:175-179 | What a creation stores for its items compares equal to what it was asked for |
| Writes.AcceptIsLawful | internal/services/shipment_service.go:111-676 | Every accepted call of any kind is a birth under unused keys or one permitted step of one row, with three records that describe the row it leaves |
| Invariants.InvAfterCommit | internal/services/shipment_service.go:632-676 | A lawful write keeps unique keys, the correspondence of records, row facts, business keys, timelines, the callback stream and the conservation of updates |
| Runs.RunKeepsInv | internal/services/shipment_service.go:111-676 | All of that holds in every reachable database, with deliveries anywhere in between, and every outbox row carries the order, tracking number, lane and public id of its shipment |
| Runs.TimelineReproducesShipment | internal/models/models.go:56-82 | A shipment's events start at its creation status, end at its current one and change only along the graph, inside its own lane |
| Runs.CallbacksReproduceShipments | internal/services/shipment_service.go:651-672 | Replaying all callbacks in order yields exactly the stored shipments with their status and estimate, and every estimate sent is ordered |
| Consumers.MergingSurvivesIff | internal/services/shipment_service.go:651-672 | A consumer that keeps an estimate when none is sent still agrees after a write exactly if the write takes no known estimate away |
| Consumers.MergingReproducesIff | internal/services/shipment_service.go:651-672 | In a reachable database that consumer is right exactly if every shipment with an open estimate has never been sent one |
| Consumers.SomeRunMisleads | internal/services/shipment_service.go:529-570 | A creation with an estimate and an update without one mislead it |
| Runs.EventsConserveUpdates | internal/services/shipment_service.go:406-421 | No lost update: a shipment's events number its version plus its AddEvent calls, and events, audit rows and outbox rows correspond one to one |
| Runs.LifecycleCounts | internal/models/models.go:56-82 | Rescheduled <= failed <= out for delivery <= rescheduled + 1, at most 9 + 3 * failed transitions, every other status entered at most once, in runs of any length |
| Runs.DeliveredMeansDelivered | internal/services/shipment_service.go:399-415 | Delivered exactly if a delivery time is set; then every earlier stage was passed in order and no stops remain |
| Runs.CancelledWasNeverReceived | internal/services/shipment_service.go:466-485 | A cancelled shipment went straight from its creation status to cancelled, and cancellation is entered at most once |
| Progress.EventsTellJourney | internal/services/shipment_service.go:399-421 | In every reachable database the remaining stops and the delivery time of a shipment are what its events come to, in order |
| Progress.CallbacksShowStops | internal/services/shipment_service.go:656-660 | Every callback shows the stops given with its event, or those its shipment had when the event was recorded |
| Authority.EveryChangeIsAuthorized | internal/services/shipment_service.go:850-861 | Every change in every reachable database was made by a role that may make it |
| Authority.ForbiddenIff | internal/services/shipment_service.go:850-861 | A change is forbidden exactly to the roles, given by their text, that may not make it, and negative stops to all |
| Columns.EveryRowFits | internal/services/shipment_service.go:763-861 | Every stored row fits its limits; outbound shipments leave the warehouse, returns come back to it, carried as their originals |
| Lifecycle.GraphIs | internal/models/models.go:56-82 | The graph is four chains, cancellation before receipt and return to the sender after it, and nothing else |
| Lifecycle.AttemptsBalance | internal/models/models.go:56-82 | The balance of delivery attempts on every path of the graph from awaiting_receipt |
| Lifecycle.DeliveredInOrder | internal/models/models.go:56-82 | Delivered is last and preceded by the whole chain of stages |
| Lifecycle.ReturnStaysInLane | internal/models/models.go:69-76 | A return path is a prefix of one chain of eight statuses |
| Registry.CreateRefines | internal/services/shipment_service.go:111-203 | A valid Create answers as a registry of keys and orders: the holder of the key decides, then the holder of the order; only an unregistered request can be accepted |
| Registry.ReturnRefines | internal/services/shipment_service.go:205-309 | The same for returns, which are registered once per order and original |
| Registry.BusinessTextIsInjective | internal/services/shipment_service.go:891-897 | Business keys determine order and original as long as public ids hold no colon; orders may hold colons |
| RegistryRuns.RegistrationsLast | internal/services/shipment_service.go:371-608 | Nothing that happens later changes what a shipment was registered for, nor its key |
| RegistryRuns.CreateIsRemembered | internal/services/shipment_service.go:118-128 | Once a Create is accepted, an equivalent one under its key, or an unused key for its order, returns the same row for ever, and a different one is a conflict |
| RegistryRuns.ReturnIsRemembered | internal/services/shipment_service.go:212-228 | The same for accepted returns |
| RegistryRuns.OneShipmentPerBusiness | migrations/migrations.go:127-131 | One outbound shipment per order and one return per order and original in every reachable database |
| RegistryRuns.FirstCreateSucceedsIff | internal/services/shipment_service.go:637-639 | An unregistered Create succeeds exactly if its numbers, handover code and derived event key are unused and its key has at most 116 bytes |
| RegistryRuns.FirstReturnSucceedsIff | internal/services/shipment_service.go:637-639 | The same for returns, with 120 bytes |
| Replays.RetryChangesNothing | internal/services/shipment_service.go:378-389 | Repeating an accepted change at any later time writes nothing and returns the event or shipment of the first call |
| Replays.OneEffectPerKey | migrations/migrations.go:176-177 | No two recorded events of any run share source and key |
| Replays.UndisturbedCancel | internal/services/shipment_service.go:466-485 | From every reachable outbound status: a replay when cancelled or returning, a refusal in the four late statuses, acceptance in all others |
| Replays.CancelledForGood | internal/services/shipment_service.go:466-485 | Once a shipment is cancelled, delivered or on its way back, every later Cancel of it, under any key and whatever happened in between, is a replay or a refusal |
| Serializability.Serializable | internal/services/shipment_service.go:111-676 | Whatever statements of however many workers interleave, the committed tables are those of the committed calls run one after another; losers leave no trace |
| Adequacy.EveryCallCommits | internal/services/shipment_service.go:111-676 | From any quiet moment, whatever call would be accepted alone is carried to its commit by a continuation of the interleaving, with the same effect, and the moment after is quiet again |
| Adequacy.EveryRunIsInterleaved | internal/services/shipment_service.go:111-676 | The converse of serializability: every run of calls and deliveries, sources and keys being trimmed and keys not empty, is what some interleaving of statements leaves |
| Adequacy.InterleavedIffAtomic | internal/services/shipment_service.go:111-676 | With one or more workers, the databases that interleaved statements can leave are exactly those that runs of atomic calls and deliveries can leave, sources and keys being trimmed and keys not empty |
| Serializability.CommitIsAtomic | internal/services/shipment_service.go:371-445 | At its commit a transaction writes exactly what its call would be accepted for in the database as it is then, although it checked its key before it locked |
| Serializability.CancelPlanHolds | internal/services/shipment_service.go:466-485 | The plan a cancellation made from an unlocked read is still the right one when it commits |
| Concurrency.LocksAreExclusive | internal/services/shipment_service.go:390-396 | No two transactions hold one row, and a locked row is the committed row |
| Concurrency.OneCommitPerKey | internal/services/shipment_service.go:378-389 | In every interleaving no two committed calls share a source and event key |
| Concurrency.RacesActAsOneCall | internal/services/shipment_service.go:371-608 | From a quiet moment, racing calls under one key leave all five tables unchanged, or as one of the calls that the race began would leave them alone |
| Concurrency.CancelIsSafe | internal/services/shipment_service.go:466-485 | In every interleaving a shipment ends cancelled only if it was never received |
| Concurrency.TimelinesInIdOrder | internal/services/shipment_service.go:646-649 | Commits never put a shipment's events out of the order of their ids |
| Backoff.BackoffDelay | internal/outbox/dispatcher.go:220-235 | The early-exit doubling loop yields min(base * 2^(attempts - 1), 30 min) from the second attempt on, with up to a quarter of jitter below the cap, and no 64-bit overflow |
| Backoff.BackoffRange | internal/outbox/dispatcher.go:220-235 | With a base of at most 30 min every delay lies between the base and 37.5 min |
| Dispatch.Dispatcher.ClaimDueEvents | internal/outbox/dispatcher.go:96-128 | Stale rows go back in line, then the first due rows in (next attempt, id) order are marked processing with one more attempt and handed out as they are stored; no other row changes, but for the recovered |
| Dispatch.Dispatcher.FindDue | internal/outbox/dispatcher.go:114-116 | The selection holds the first due rows in order and leaves out a due row only behind a full batch |
| Outbox.SelectionIsUnique | internal/outbox/dispatcher.go:114-116 | That description fixes the selection completely |
| Dispatch.Dispatcher.DeliverOne | internal/outbox/dispatcher.go:130-173 | The event's row becomes delivered exactly on a code from 200 to 299; failed when nothing was sent, on cancellation, on 400, 401, 403, 404 and 422, and when no attempts remain; otherwise pending after a backoff delay |
| Delivery.AnswersAreToldApart | internal/outbox/dispatcher.go:160-173 | Success is a 2xx code, permanent failure one of seven answers, and the two do not meet |
| Dispatch.Dispatcher.MarkRetry | internal/outbox/dispatcher.go:186-202 | Pending after a backoff delay while attempts remain, failed otherwise, on the rows with the event's id and no other |
| Dispatch.Dispatcher.DeliverDue | internal/outbox/dispatcher.go:80-94 | A poll is one claim followed by the settling of its events in turn, whichever of the settling writes fail |
| Polling.PollIsRun | internal/outbox/dispatcher.go:80-94 | What that poll leaves in the table is reached by a continuation of the state machine's run, which ends with the poller idle and all other dispatchers where they were, so that polls follow one another |
| Exclusivity.RunIsExclusive | internal/outbox/dispatcher.go:80-202 | With one dispatcher, or batches that end before rows go stale, every row in hand is in the table as it was claimed, processing, with its owner's attempts |
| Exclusivity.LeasesAreDisjoint | internal/outbox/dispatcher.go:96-128 | Then no row is in the hands of two deliveries |
| Exclusivity.FinalIsForGood | internal/outbox/dispatcher.go:175-202 | Then delivered and failed rows never change again |
| Overlap.ExclusiveIffSafe | internal/outbox/dispatcher.go:96-128 | All runs are exclusive exactly under that condition; otherwise a second dispatcher takes over the last row of a slow batch |
| Overlap.FinalIffSafe | internal/outbox/dispatcher.go:175-202 | Delivered and failed rows are safe in all runs exactly under that condition |
| Accounting.AttemptsAreBounded | internal/outbox/dispatcher.go:186-202 | Whatever overlaps or crashes, attempts <= maximum + recoveries of the row, and a pending row has one of these left |
| Accounting.CallbacksAreBounded | internal/outbox/dispatcher.go:96-202 | n rows cause at most n * maximum callbacks and one more per recovery |
| Work.WorkIsBounded | internal/outbox/dispatcher.go:96-202 | A run makes at most n * maximum claims that hand out rows, as many callbacks and as many settling writes, and one more of each per recovery |
| Budget.BudgetIsTight | internal/outbox/dispatcher.go:101-112 | For every number of recoveries a run reaches the bound, even with one dispatcher |
| Delivery.AtLeastOnce | internal/outbox/dispatcher.go:80-202 | Rows are never lost and messages never change; delivered means a logged response with a code from 200 to 299 to exactly the stored payload, failed means a logged hopeless answer or an unsuccessful last attempt |
| EndToEnd.SystemIsBoth | internal/services/shipment_service.go:651-672 | Any run of the service and its dispatchers over one outbox is a run of the service for the tables and a run of the dispatchers for the outbox, so both sets of results hold together |
| EndToEnd.CallbacksReportEvents | internal/outbox/dispatcher.go:130-173 | Every callback ever sent carries the payload of one recorded event, with its id, type, status and time and its shipment's public id, order, tracking number and lane, for one of its counted attempts |
| EndToEnd.ShopIsTold | internal/services/shipment_service.go:651-672 | The last outbox row of a shipment holds its current status and estimate; once it is delivered, a callback with them was answered with 2xx |
| Fairness.BoundedWaiting | internal/outbox/dispatcher.go:114-116 | A due row with k rows ahead, overtaken by u insertions, is passed over by at most (k + u) / 10 polls |
| Fairness.ClaimedInTime | internal/outbox/dispatcher.go:114-128 | With exclusive leases the next poll after that claims it |
| Pauses.RetryWaits | internal/outbox/dispatcher.go:186-202 | With exclusive leases a row put back in line does not change until a poll claims it, at least the base delay of its attempt later |
| Pauses.DelayDoubles | internal/outbox/dispatcher.go:220-235 | Each further attempt doubles the base delay, up to thirty minutes |
| Limiter.LoginLimiter.Allow | internal/portal/limiter.go:23-44 | The sweeping loop and the counter decide and count as the fixed-window specification on the swept map |
| Limiter.SweepIsUnobservable | internal/portal/limiter.go:27-33 | Evicting at any size never changes an answer |
| Limiter.SlidingBound | internal/portal/limiter.go:23-44 | Any closed interval as long as the window holds at most 2 * limit - 1 granted attempts of a key |
| Limiter.SlidingBoundIsTight | internal/portal/limiter.go:23-44 | For every limit and window some run reaches that number |
| Limiter.OwnWindowBound | internal/portal/limiter.go:34-43 | The limiter's own window grants exactly its count, at most the limit |
| Sessions.Portal.RequireAuth | internal/portal/auth.go:57-80 | Accepts exactly cookies of 64 bytes that name an unexpired session of an active user at the user's security version, and deletes the named session otherwise |
| Sessions.Portal.Start | internal/portal/auth.go:33-47 | Drops the old and all expired sessions and inserts the new one unless its token exists |
| Sessions.Portal.Login | internal/portal/handler.go:111-147 | Starts a session at the version read exactly for an active user with this password |
| Sessions.Portal.ChangePassword | internal/portal/handler.go:443-473 | With the right current password and a strong new one the user has exactly the new password and the version after the one read, role and activation as before; all her sessions go and one starts at that version; otherwise no account changes |
| Sessions.Portal.ChangeUserStatus | internal/portal/handler.go:596-604 | An unknown user is not found and nothing changes; otherwise activation is as asked and the version rises, nothing else of the account changes, and only disabling deletes sessions |
| Sessions.Portal.ChangeUserRole | internal/portal/handler.go:637-642 | An unknown user is not found and nothing changes; otherwise the role is as asked, the version rises, nothing else of the account changes, and the user's sessions are deleted |
| SessionRuns.SessionsAreFresh | internal/portal/auth.go:57-80 | In runs without an outdated password write, a session that authenticates belongs to an active user with no account change since its login read the user |
| SessionRuns.VersionsRise | internal/portal/handler.go:571-648 | A step of the portal raises a user's version by one for each change it makes and moves it for nothing else, unless it is an outdated password write |
| SessionRuns.ChangesRaiseIffCurrent | internal/portal/handler.go:457-463 | In a run of the code every account change raises its user's version exactly if every password write finds the version it read |
| SessionRuns.OvertakenForGood | internal/portal/auth.go:70-75 | In every run, outdated password writes included, a stored session behind its user's version stays rejected for good as long as its row is there |
| Credentials.AccountsAreAsWritten | internal/portal/handler.go:443-648 | In every run password, role and activation of every account are those last written |
| Credentials.LoginIffLastPassword | internal/portal/handler.go:111-141 | A login gets through with exactly the password written last, for exactly the users enabled last |
| OutdatedWrites.InsertionBreaksFreshnessIff | internal/portal/handler.go:141-147 | In every reachable state, the session a login inserts is stale exactly if its user has changed since the read, is active, and has the version that was read |
| OutdatedWrites.LateSessionIsStaleIff | internal/portal/handler.go:443-473 | After any password write and up-to-date steps, the session of a login in flight since before is stale exactly if that user is active and the login read the held version plus the number of changes from the write on; another user's session is fresh unless she was threatened at the write |
| OutdatedWrites.StaysFreshIff | internal/portal/auth.go:70-75 | From every reachable state, all continuations without an outdated write are fresh exactly if no login in flight and no stored session that has missed a change holds a version above its user's, or hers while she is active |
| OutdatedWrites.CurrentRunIsSafe | internal/portal/handler.go:457-463 | After a run without outdated writes nobody is threatened |
| OutdatedWrites.PasswordWriteIsHarmlessIff | internal/portal/handler.go:443-473 | A password write leaves every continuation without an outdated write fresh exactly if no login in flight of that user read a version above the one written, or that one while she is active, and no other user is threatened |
| Gauges.Collect | internal/metrics/metrics.go:145-162 | From the grouped counts the loops emit, for every listed status, the number of shipments in it, and for every return status that number a second time; each gauge holds the size of the set it stands for |
| Gauges.GaugesSumIffListed | internal/metrics/metrics.go:98-112 | The gauges sum to the number of shipments exactly if every stored type and status is listed |
| Gauges.GaugesAreTotal | internal/metrics/metrics.go:98-162 | In every reachable database they do |

## Left out

- Service.ShipmentService.RecordEvent: the numeric actor id of audit rows, event titles written by the service, and JSON encoding are not modelled; they are functions of modelled values that nothing reads back.
- Service.ShipmentService.UpdateStops: the answer names the row rather than the in-memory copy, whose version field depends on whether the ORM writes updated columns back into it.
- Service.ShipmentService.UpdateEta: the same.
- Serializability.Serializable: a call that loses a race ends without a stated answer, because whether its repeated read sees the winner depends on the isolation level; that it changes nothing is proved. Deadlock detection and lock timeouts are failures at any step.
- Serializability.CommitIsAtomic: sources and keys are trimmed and keys not empty, as the API middleware delivers them.
- Concurrency.TimelinesInIdOrder: assumes that the database numbers event rows in the order of their insertion.
- Operations.Record: one call reads one clock value and draws its identifiers and row numbers beforehand; the code reads the clock several times and may observe slightly later values.
- Replays.UndisturbedCancel: database columns narrower than validation are not modelled; created_by_id and the audit's actor_id hold 64 characters, and a cancellation writes its source there, so a source of 65 to 80 bytes is refused by the database.
- Replays.UndisturbedTransition: the same for an actor id of more than 64 characters.
- Dispatch.Dispatcher.DeliverDue: a shutdown in the middle of a poll is a crash of the state machine, not a path of this method.
- Dispatch.Dispatcher.ClaimDueEvents: the claim is one atomic transaction with one clock reading, and the delivered_at and last_error columns are not modelled.
- Backoff.BackoffDelay: a failing random source, which only drops the jitter, is the draw that yields no jitter. Configuration loading does not check the range of the base delay: below zero, where drawing the jitter can panic, and from 2^62 ns on, where the first doubling leaves 64 bits (`Backoff.DoublingIsExactIff`), are not modelled.
- Fairness.BoundedWaiting: counts polls, not time; the pause between polls is configuration.
- Sessions.Portal.ChangeUserStatus: the guards against disabling or demoting oneself or the last administrator are left to the caller.
- Sessions.Portal.RequireAuth: in `SessionRuns` any text may be a token, whatever its length; cookie attributes and the 64-bit range of security versions are not modelled; a token stands for its hash, a password for its bcrypt hash.
- Gauges.Collect: the pair of type and status stands for the text key made of both; the other metrics are not modelled.
- Text.ToUpper: only ASCII letters have an upper-case form.
- MySQL collation is not modelled: texts are compared character by character, so keys that differ only in case are different keys here.
- Rounding of stored times to milliseconds, soft deletion, and legacy rows brought in by migrations.
- HTTP routing, JSON binding, templates, QR codes, images, CSRF tokens, configuration loading and all counters.
- Read-only queries of the service (`GetPublic` and its like), which change nothing and add no property.
