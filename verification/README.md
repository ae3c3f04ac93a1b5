# TruthMetal: the parameter ledger and the golden-suite validator

TruthMetal keeps versioned, namespaced facts. A fact is submitted, validated,
promoted to CANONICAL and later superseded or revoked; every transition is
recorded in an append-only ledger, the canonical value of a key is cached for five
minutes, and promotions are broadcast on a bounded channel. No transaction spans two
store calls, and several errors are dropped. A separate validator decides
whether a golden evaluation suite (manifest, quality gates, case set) is accepted.

The ledger service is modelled at one granularity and read in three ways.
`Protocol.Step` is one call to the store, the cache or the channel, made by a
thread with a program counter and the locals it has read; the call may be
acknowledged, be lost, or take effect and lose its acknowledgement.

* `Interleavings` and `Reads` run any number of threads, call by call, with cache
  entries that vanish at any time. The invariant (`Invariants`) is a rely/guarantee
  one: a shared part about the tables, a part per thread about its locals, and a
  guarantee on what a step may do to rows it does not own.
* `Sequential`, `Refinement`, `Staleness` and `Audit` run one operation at a time
  (`Protocol.Solo`), for any history. `Overlap` shows that every sequential history is an
  interleaving, and that two overlapping Submits lose what sequential ones promise;
  `StaleReads` says how old an answer can be when calls overlap, `Lingering` exactly when a
  revoked value can still be served, `Revocations` and `UncheckedEntries` exactly what moves a
  row to REVOKED and REJECTED, `Misinformation` how the ledger can be wrong about it, and
  `Replays` exactly when replaying the ledger still gives a row's state. `Particulars` and
  `Origins` say what rows, entries and broadcasts contain, field by field and written out.
* `Service` holds the imperative classes (store, cache, channel, quorum, service). Every
  method of the ledger service is proved to change the state and answer exactly as the
  solitary run of its thread, and `ServeAll` carries that to whole histories: what is proved
  of `Exec` and `Do` holds of the objects. `Watch` is proved against the channel's histories,
  with other senders and watchers at work between its rounds.

`GoldenSuite` holds the three validators as loops over `seen` sets, each proved to accept
exactly what one quantified predicate admits; `SuiteFacts` says what acceptance implies.

| file | contents |
|---|---|
| `Model.dfy`, `Tables.dfy`, `CacheKeys.dfy`, `Channels.dfy` | entities, the two tables, cache keys, the channel |
| `Protocol.dfy`, `Invariants.dfy` | threads, atomic steps, the inductive invariant |
| `Interleavings.dfy`, `Reads.dfy`, `StaleReads.dfy`, `Lingering.dfy`, `Broadcasts.dfy`, `Origins.dfy` | runs of any number of threads |
| `Revocations.dfy`, `UncheckedEntries.dfy`, `Misinformation.dfy`, `Replays.dfy` | what moves rows to their final states, and what the ledger says of it |
| `Alone.dfy`, `Sequential.dfy`, `Refinement.dfy`, `Numbering.dfy`, `Particulars.dfy`, `Staleness.dfy`, `Audit.dfy` | operations that do not overlap |
| `Overlap.dfy`, `AsWritten.dfy` | solitary runs as interleavings; the code before two defects are mended |
| `Service.dfy` | the classes and `Watch` |
| `GoldenSuite.dfy`, `SuiteFacts.dfy` | the suite validator |
| `Lists.dfy`, `Sorting.dfy` | sequences without repetition, permutations, sorting |

`dafny verify dfyconfig.toml` checks the project.

## Where the code and its intention differ

* `internal/ledger/ledger.go:41` gives `errors.As` the address of a value that is not an error
  (`internal/store/store.go:46` has a pointer receiver), so the call panics. The intended branch
  is "not found means version 1".
* `COALESCE(previous_version_id,'')` (`internal/store/postgres.go:41` and `54`) of a UUID column
  is refused by Postgres, since '' is no uuid. The intention is that an absent predecessor reads as "".
* `Protocol` follows the intention at both. `AsWritten` models either or both defects: `IntentionDiffersExactly`
  says at which steps the code differs, and `NothingIsEverStored` that with either of them nothing is ever stored.
* `internal/store/store.go:29` promises that listing by version is chronological. That fails after a Revoke or
  a rejected Submit, since numbering restarts: `Numbering.RevokeRestartsNumbering` has the history, and
  `Numbering.ListingIsChronologicalExactly` the exact condition.
* `internal/model/parameter.go:30` says a CANONICAL parameter is never mutated. `Revocations.LeavesCanonicalExactly`
  says what does: one action changes a canonical row if and only if it is the effective state write of a Submit
  that supersedes the row or of a Revoke that found it, and then to REVOKED with a new time stamp and nothing else.
  `Lingering.RevokeRuns` has such a run from every reachable state with a canonical row.
* The state writes before a REJECTED and a SUPERSEDED event are unchecked (`internal/consensus/quorum.go:41`,
  `internal/ledger/ledger.go:89`), so those events can tell of a move that never was. `UncheckedEntries` says
  exactly when they are true, and `Misinformation` has runs, from the start and from every reachable state, in which
  they are not.
* A Get that starts after a Revoke has returned can be answered with the revoked value. `Lingering.ComesBackExactly`
  has the exact condition, and `Lingering.RevokedValueComesBack` a run.

## Model

| member | source | states |
|---|---|---|
| Invariants.EveryStepKeeps | internal/ledger/ledger.go:33-178 | Any one call of any operation, whatever its fate, keeps the table, ledger and cache invariant and the invariant of its own thread, and touches only a row its thread owns, a row that did not exist, or a canonical row it revokes |
| Invariants.Undisturbed | internal/store/store.go:9-11 | What a thread knows between its calls survives any step of threads that do not own its row, without transactions |
| Invariants.MoveKeeps | internal/store/postgres.go:61-67 | A state write along a lifecycle edge, with any fate, keeps every row, event and cached record sound |
| Invariants.InsertKeeps | internal/store/postgres.go:21-36 | Inserting a well-linked row, with any fate, keeps every row, event and cached record sound |
| Invariants.AppendKeeps | internal/store/postgres.go:94-108 | Appending a sound event, with any fate, keeps the ledger sound |
| Invariants.LookupGenuine | internal/store/postgres.go:38-49 | GetParameter returns only a CANONICAL row of the table, field for field, with that namespace and key |
| Interleavings.EveryActionKeeps | internal/ledger/ledger.go:33-178 | Starting a call, advancing one, evicting an entry or delivering an event keeps the system invariant, and bounds what the action may do to the tables |
| Interleavings.InvariantHolds | internal/ledger/ledger.go:33-178 | The invariant holds in every state of every run of any number of calls with failures |
| Interleavings.LifecycleOnlyAdvances | internal/consensus/quorum.go:30-62 | Over all interleavings and failures a row moves one legal edge at a time, skips no stage, never leaves REJECTED or REVOKED, keeps all facts but state and time stamp, and the ledger only grows |
| Interleavings.RowsStartSubmitted | internal/ledger/ledger.go:58-70 | A row that appears in a run is SUBMITTED |
| Interleavings.StoreLeadsLedger | internal/consensus/quorum.go:30-62 | Over all interleavings and failures an event carries the FromState and ToState of its kind, and its row has reached ToState, except that for the two kinds whose state write is unchecked, REJECTED and SUPERSEDED, it is sure to have reached FromState |
| Interleavings.OwnEventsInOrder | internal/consensus/quorum.go:35-61 | The events a Submit writes for its row are always a prefix of one of the two legal orders, none twice, whatever is appended between them |
| Interleavings.OwnEventsConnect | internal/consensus/quorum.go:30-62 | In every run the events a Submit writes for its row are a path of legal moves from "", each FromState the ToState before it, whatever is appended between them, and the row has reached its end (its last FromState, if it ends in a rejection) |
| Interleavings.SubmitLeavesItsTrail | internal/ledger/ledger.go:104-132 | A Submit that returned without error has left SUBMITTED, VALIDATED, CONSENSUS_REACHED and PROMOTED, each once and in that order, and its result is its row up to state and time stamp |
| Interleavings.ChainsEnd | internal/ledger/ledger.go:35-62 | In any run, predecessors of any row end after exactly `version` rows, at version 1 without predecessor, through rows of the same key that were canonical once, one version lower per hop |
| Interleavings.AtMostOneCanonical | migrations/001_create_parameters.up.sql:22-24 | At most one CANONICAL row per namespace and key in every state of every run |
| Interleavings.PromotionExactly | internal/consensus/quorum.go:54-59 | Promotion takes effect if and only if no other row of the key is canonical and the call is not lost; the Submit goes on if and only if it also is acknowledged; a refused row is abandoned in CONSENSUS_PENDING |
| Interleavings.FailedSubmitAbandons | internal/ledger/ledger.go:104-108 | A Submit that fails before its row was canonical leaves a row that no other thread will move |
| Interleavings.AbandonedForever | internal/store/postgres.go:61-67 | An abandoned row never changes again in any continuation of the run |
| Interleavings.RefusedStaysPending | migrations/001_create_parameters.up.sql:22-24 | A Submit whose promotion the unique index refuses leaves its row CONSENSUS_PENDING for ever |
| Broadcasts.RunsUseTheChannel | internal/ledger/ledger.go:121-130 | In every run the channel is the bounded channel of `Channels`: never more than 256 events, filled by the broadcasts accepted in the run, and each watcher's stream is what the run delivered to it |
| Broadcasts.WatchersShareTheBroadcasts | internal/api/handler.go:130-145 | In every run the watchers' streams and the channel partition the accepted broadcasts, and each watcher sees them in order |
| Origins.BroadcastsArePromotions | internal/ledger/ledger.go:111-130 | In every run an accepted broadcast is a PROMOTED event for the row of the Submit that sent it, in the state that Submit has read, after the row was CANONICAL with its PROMOTED entry in the ledger |
| Origins.WatchersHearOfPromotions | internal/api/handler.go:130-145 | In every run every event a watcher is handed is one of these |
| Reads.HeldWasCanonical | internal/ledger/ledger.go:117-146 | Every record in the cache or on its way to a caller was, field for field, the canonical row at an earlier moment of the run |
| Reads.GetReturnsGenuine | internal/ledger/ledger.go:136-146 | Over all interleavings and failures, what Get returns was the canonical row at some earlier moment, passes value validation, and has the cache key that was asked for |
| Reads.GetAnswersTheQuestion | internal/ledger/ledger.go:136-146 | When submitted and queried namespaces are colon-free, Get returns a record of the namespace and key it was asked for |
| Reads.GetAnswersColonFreeKeys | internal/cache/redis.go:46-48 | Whatever namespaces others use, Get for a colon-free namespace and key is answered with its own record |
| CacheKeys.InjectiveOnColonFree | internal/cache/redis.go:46-48 | Cache keys of colon-free namespaces are equal if and only if namespace and key are |
| CacheKeys.ColonInNamespaceCollides | internal/cache/redis.go:46-48 | Every colon in a namespace makes its entry collide with one of a different namespace |
| CacheKeys.UnambiguousExactly | internal/cache/redis.go:46-48 | An entry is shared with no other namespace and key if and only if neither part has a colon |
| CacheKeys.Collision | internal/cache/redis.go:46-48 | Namespace `a:b` with key `c` and namespace `a` with key `b:c` share an entry |
| Sequential.HistoriesAreQuiet | internal/ledger/ledger.go:33-178 | Every history of operations that do not overlap keeps the invariant, a ledger that tells every row's state and event count, and settled unforked rows |
| Sequential.ReplayRebuildsStates | internal/ledger/ledger.go:73-100 | Replaying the ledger rebuilds the state of every row: its events are a connected path of legal moves from "" to the stored state |
| Replays.ReplaysExactly | internal/ledger/ledger.go:73-100 | In every run, with overlap and failures, replaying the ledger gives a row's state if and only if the row's own events have got as far as the row, and its revocation has one event if it is REVOKED and none otherwise, after PROMOTED |
| Replays.TwoRevokesBreakReplay | internal/ledger/ledger.go:154-178 | Every run that ends with a canonical row of a key can be continued by two Revokes of the key and nothing else, with no store call lost, that both succeed and leave two events for the one revocation, so that replay does not give REVOKED |
| Sequential.RowsRestUnforked | internal/ledger/ledger.go:35-102 | Between operations every row is CANONICAL, REJECTED or REVOKED and no two rows share a predecessor |
| Sequential.SubmitDecides | internal/ledger/ledger.go:104-132 | In a history a valid Submit never trips the unique index: its row ends CANONICAL and is returned; an invalid one ends REJECTED and is refused |
| Particulars.SubmitAcceptsExactly | internal/consensus/validate.go:12-42 | After every history a Submit ends CANONICAL and returns its row if and only if its type is string, or number, json or timestamp and the library parses the value, or bool and the value is true or false, or semver and the value is not empty; otherwise, an unknown type included, its row ends REJECTED and it is refused |
| Particulars.SubmitKeepsTheRequest | internal/ledger/ledger.go:47-70 | After every history the row a Submit stores, and the record it returns, have the drawn id, the clock reading of the insert, and key, value, type, namespace, source, source reference and metadata of the request, each in its own field, whether accepted or rejected |
| Particulars.SubmitAddsItsEntries | internal/ledger/ledger.go:72-100 | After every history a Submit adds exactly these entries, written out field by field: SUBMITTED with the request's actor, source and source reference; SUPERSEDED for the row it replaces, naming the new id; VALIDATED; then CONSENSUS_REACHED and PROMOTED, or REJECTED |
| Particulars.RevokeAddsItsEntry | internal/ledger/ledger.go:154-177 | After every history a successful Revoke adds exactly one entry, with the actor, the reason and the clock reading of its append; a Revoke of a key without canonical row is refused as not found and adds none |
| Particulars.SubmitShowsInTheTrail | internal/store/postgres.go:110-154 | After every history a Submit adds those entries to the audit trail of its key and changes no other trail |
| Particulars.RevokeShowsInTheTrail | internal/store/postgres.go:110-154 | After every history a Revoke adds its one entry to the audit trail of its key and changes no other trail |
| Particulars.SubmitBroadcasts | internal/ledger/ledger.go:121-130 | After every history an accepted Submit puts one event on the channel below 256, which names its own id and CANONICAL, and no other operation puts any |
| Origins.RowsSayTheirRequest | internal/ledger/ledger.go:47-70 | In every run every row says, field by field, what the request its thread was spawned with said, and was created at the clock reading of its insert |
| Origins.AnswersSayTheirRequest | internal/ledger/ledger.go:136-146 | In every run what Get returns says, field by field, what the request of some Submit said |
| Origins.EntriesSayWho | internal/ledger/ledger.go:73-173 | In every run a SUBMITTED entry has the actor and both context values of a Submit's request, and a REVOKED entry the actor and the reason of a Revoke |
| Sequential.SubmitRows | internal/ledger/ledger.go:87-105 | A solitary Submit adds its settled row and revokes the row it replaces, also when the new value is rejected, and changes no other row |
| Alone.SoloKeeps | internal/ledger/ledger.go:33-178 | A call that runs alone keeps the table, ledger and cache invariant, whatever fails |
| Alone.ValidSubmitAlone | internal/consensus/quorum.go:46-61 | The whole state and answer after a solitary valid Submit on a store that answers |
| Alone.InvalidSubmitAlone | internal/consensus/quorum.go:39-44 | The whole state and answer after a solitary Submit of an invalid value, with the old version already retired |
| Alone.RevokeAlone | internal/ledger/ledger.go:154-178 | The whole state and answer after a solitary Revoke |
| Alone.GetAlone | internal/ledger/ledger.go:136-146 | The whole state and answer after a solitary Get: a live entry, or else the canonical row, which it caches |
| Refinement.LookupAfter | internal/store/postgres.go:38-49 | What one write of a row does to GetParameter of every namespace and key |
| Refinement.OpAgrees | internal/ledger/ledger.go:33-178 | Each operation moves the canonical rows as it moves a plain map of current values, and Submit and Revoke answer what the map answers even when the cache fails |
| Refinement.HistoriesAgree | internal/ledger/ledger.go:33-178 | After every history the canonical rows are exactly the entries of the plain map |
| Refinement.VersionCountsTheStreak | internal/ledger/ledger.go:35-41 | A key has a canonical row exactly when it had a successful Submit since it last had none, and their number is its version |
| Numbering.RowsAreNumbered | internal/ledger/ledger.go:35-62 | After every history the rows of a key are those submitted for it, and each has one more than the number of successful Submits since the key last had no canonical row when it was submitted |
| Numbering.VersionsRiseExactly | internal/ledger/ledger.go:35-41 | A key's versions rise from Submit to Submit if and only if every Submit after its first finds a canonical row |
| Numbering.ListingIsChronologicalExactly | internal/store/postgres.go:69-92 | Every listing of a key's rows by ascending version is in the order of submission if and only if every Submit after the key's first found a canonical row |
| Numbering.RevokeRestartsNumbering | internal/store/store.go:29-30 | After Submit, Revoke, Submit both rows have version 1 and may be listed either way round |
| Refinement.SubmitCoherent | internal/ledger/ledger.go:101-119 | A faultless Submit leaves every cache entry equal to the canonical row of its key |
| Refinement.RevokeCoherent | internal/ledger/ledger.go:154-178 | A faultless Revoke leaves every cache entry equal to the canonical row of its key |
| Refinement.HitIsCurrent | internal/ledger/ledger.go:136-139 | With a coherent cache and colon-free namespaces, a cache hit is the current value of the key asked for |
| Refinement.OpRefines | internal/ledger/ledger.go:33-178 | One faultless operation gives the answer of the plain map and keeps the refinement relation |
| Refinement.HistoriesRefine | internal/ledger/ledger.go:33-178 | The refinement relation holds after every faultless history on colon-free namespaces |
| Refinement.ServiceRefinesMap | internal/ledger/ledger.go:33-178 | After every such history, with entries expiring at any time and any clock readings, every further operation answers what the cache-free map answers |
| Staleness.EntriesHaveAnOrigin | internal/cache/redis.go:34-40 | Every cache entry was written right after some operation from what was then the canonical row, and expires five minutes after that operation |
| Staleness.StaleByAtMostFiveMinutes | internal/cache/redis.go:12-40 | With cache calls failing silently, Get returns the canonical row now or one that was canonical less than five minutes earlier |
| Staleness.StaleButRightKey | internal/cache/redis.go:46-48 | With colon-free namespaces such an answer belongs to the namespace and key asked for |
| Staleness.CollidingGet | internal/cache/redis.go:46-48 | After a valid Submit to one of two keys that share an entry, a Get of the other is answered with it while it is cached |
| Staleness.ColonInKeyIsWrong | internal/cache/redis.go:46-48 | After a valid Submit to namespace `head:tail`, a Get of `head` with key `tail:key` returns the other namespace's record |
| Staleness.ColonInNamespaceIsWrong | internal/cache/redis.go:46-48 | After a valid Submit to namespace `head` with key `tail:key`, a Get of `head:tail` with key `key` returns the other namespace's record |
| Staleness.OwnAnswersExactly | internal/ledger/ledger.go:136-146 | Every successful Get of a namespace and key returns their own record in every history if and only if both are colon-free |
| StaleReads.AnswersAreThisOld | internal/ledger/ledger.go:136-146 | Over all interleavings and failures, an answer found at clock reading t was canonical when Get itself read it from the store, or when some thread read it from the store that wrote it to the cache less than five minutes before t; with clocks in order the readings are in that order |
| Lingering.NeverComesBack | internal/ledger/ledger.go:136-178 | Once a revoked row is in no unexpired cache entry and in no thread about to fill the cache, no Get that starts later is ever answered with it, whatever runs and fails |
| Lingering.ComesBackExactly | internal/ledger/ledger.go:136-178 | In any run and from any clock reading on, a Get that starts later can be answered with a revoked row if and only if the row is in an unexpired cache entry or in a thread about to fill the cache |
| Lingering.RevokedValueComesBack | internal/ledger/ledger.go:136-178 | Every run that ends with a canonical row of a key can be continued, every added call acknowledged, so that a Revoke returns while the row lingers and a Get that starts later is answered with the revoked value as CANONICAL |
| Overlap.SoloIsARun | internal/store/store.go:9-11 | In any run, any thread can run to its end alone: only that thread moves, its calls are those of its environment, and the effect is that of its solitary run |
| Overlap.HistoriesAreRuns | internal/ledger/ledger.go:33-178 | Every sequential history is one of the interleavings: each operation has a thread of its own that ends with the history's answer, and the run ends in the history's world |
| Overlap.LateSubmitIsRefused | internal/consensus/quorum.go:54-56 | A valid Submit that looked, found any version or none, and writes after another has promoted: it ends in an error with its row CONSENSUS_PENDING, revokes once more the version it saw, and leaves the winner's row as it was |
| Overlap.OverlappingSubmitsLoseOne | internal/ledger/ledger.go:33-108 | For any valid request there is a run of two Submits of it and nothing else, with no store call lost: the first has looked and not written when the second has ended, and then fails with its row stuck CONSENSUS_PENDING |
| Revocations.LeavesCanonicalExactly | internal/model/parameter.go:29-31 | In every reachable state an action changes a canonical row if and only if it is the effective state write of a Submit that supersedes it or a Revoke that found it, and then only its state, to REVOKED, and its time stamp |
| Revocations.RevokedExactly | internal/ledger/ledger.go:89-178 | In every run a row is REVOKED if and only if such a write has met it CANONICAL |
| UncheckedEntries.RejectedExactly | internal/consensus/quorum.go:41-43 | Ever after the state write of a rejection its row is REJECTED if and only if that write was not lost, and VALIDATING if and only if it was, whatever other threads do |
| UncheckedEntries.RejectedEntryIsTrueExactly | internal/consensus/quorum.go:41-43 | Every REJECTED event in every run belongs to one state write, and its row is in the event's ToState if and only if that write was not lost |
| UncheckedEntries.SupersededExactly | internal/ledger/ledger.go:88-89 | Ever after the state write of a superseding Submit the old version is REVOKED if and only if it already was, or the write was not lost, or another revocation has met it since |
| UncheckedEntries.SupersededEntryIsTrueExactly | internal/ledger/ledger.go:88-100 | The row of a SUPERSEDED event is in its ToState if and only if some revocation, by any thread, has met it CANONICAL |
| UncheckedEntries.SupersededEntryHasItsWrite | internal/ledger/ledger.go:88-100 | Every SUPERSEDED event in every run belongs to one state write, and its row is in the event's ToState if and only if that write found it REVOKED, or was not lost, or another revocation has met it since |
| Misinformation.UncheckedEntryMisinforms | internal/ledger/ledger.go:89-100 | From any point of any run before such a write, losing it and keeping its entry gives an event that its row contradicts |
| Misinformation.RejectedMisinforms | internal/consensus/quorum.go:41-43 | Every run can be continued by an invalid Submit and nothing else, whose one lost call is that write, to a REJECTED event for its row that the row contradicts |
| Misinformation.SupersededMisinforms | internal/ledger/ledger.go:88-100 | Every run that ends with a canonical row of a key can be continued by a Submit of the key and nothing else, whose one lost call is that write, to a SUPERSEDED event for that row that the row contradicts |
| Misinformation.RejectedMisinformsFromTheStart | internal/ledger/ledger.go:33-133 | Such a run from the empty system: one Submit of an unknown value type |
| Misinformation.SupersededMisinformsFromTheStart | internal/ledger/ledger.go:33-133 | Such a run from the empty system: a Submit that succeeds, and then a second one of the same key |
| AsWritten.IntentionDiffersExactly | internal/ledger/ledger.go:38-45 | With either, both or neither defect, a step differs from the intended one if and only if: with the `errors.As` target as written, a Submit's lookup fails or finds nothing; or, with the COALESCE as written, an answered query reads a row by key, or by id when it exists |
| AsWritten.NothingIsEverStored | internal/store/postgres.go:38-59 | With either defect, in every run nothing is ever stored, logged or cached and no call succeeds; with the COALESCE as written no failure is even reported as not found |
| AsWritten.MendedRuns | internal/ledger/ledger.go:33-178 | With both defects mended the runs of the code are the runs of `Interleavings` |
| Tables.LookupFinds | internal/store/postgres.go:38-49 | Under the unique index GetParameter returns the key's canonical row whenever there is one |
| Tables.LookupMisses | internal/store/postgres.go:38-49 | Not found means that no row of the key is canonical |
| Tables.IndexKeeps | migrations/001_create_parameters.up.sql:22-24 | A write the index admits leaves at most one canonical row per key |
| Tables.ProgressTellsAll | internal/consensus/quorum.go:35-61 | The stage read off the ledger fixes a row's own events, their number and their order |
| Audit.TrailIsTheAudit | internal/store/postgres.go:110-154 | The audit trail is newest first and holds exactly the events of that namespace and key, each as often as the ledger does |
| Audit.PagesAreTheTrail | internal/store/postgres.go:122-131 | Pages at offsets 0, L, 2L, ... concatenate to the whole trail, whose length is the total |
| Audit.PageExactly | internal/store/postgres.go:128-131 | A page is the events of the trail from the offset on, as many as the limit or as there are |
| Audit.CountedTwice | internal/store/postgres.go:112-117 | Joining the ledger to a set of rows counts the same events as adding up the events of each row |
| Audit.AuditTotalCounts | internal/store/postgres.go:110-120 | Between operations of a history, a key's audit total is 4 times its canonical, 3 times its rejected and 5 times its revoked rows |
| Channels.ChannelRuns | internal/ledger/ledger.go:121-130 | Over any run of sends and receives, received followed by buffered events are the accepted ones in order, accepted and dropped ones are the offered ones, and the buffer never exceeds 256 |
| Channels.DropsExactlyWhenFull | internal/ledger/ledger.go:121-130 | An event is dropped if and only if 256 accepted events are unreceived |
| Channels.EachToOneWatcher | internal/api/handler.go:130-145 | After any sends and receives by any watchers, the watchers' streams and the buffer partition the accepted events |
| Channels.StreamsKeepOrder | internal/api/handler.go:130-145 | After any sends and receives each watcher's stream is a subsequence of the accepted events |
| Service.PostgresStore.QueryAudit | internal/store/postgres.go:110-154 | The page of the newest-first trail at that limit and offset, and the number of the key's events |
| Service.SimpleQuorum.Evaluate | internal/consensus/quorum.go:30-82 | Every early exit, dropped error and write of Evaluate: from before to after, the solitary run of the submitting thread goes through exactly this state and result |
| Service.LedgerService.Submit | internal/ledger/ledger.go:33-133 | New state of table, ledger, cache and channel, and the answer, are those of the solitary run of a Submit, for every fate of every call |
| Service.LedgerService.Get | internal/ledger/ledger.go:136-146 | New state and answer are those of the solitary run of a Get |
| Service.LedgerService.Revoke | internal/ledger/ledger.go:154-178 | New state and answer are those of the solitary run of a Revoke |
| Service.LedgerService.QueryAudit | internal/ledger/ledger.go:181-186 | As the store's query, with 50 for a limit of zero or less |
| Service.LedgerService.ServeAll | internal/ledger/ledger.go:33-178 | Serving any history on a new service leaves its objects in the state of `Exec` and gives the answers of `Do`, so that the theorems about histories hold of the objects |
| Service.Watch | internal/api/handler.go:130-145 | While others send and receive between its rounds: the events a watcher takes off the channel are its stream in order, it does nothing else to the channel, an event is lost only when its send fails, and that or the end of its context ends the loop |
| GoldenSuite.HasDuplicates | internal/goldensuite/contract.go:486-495 | True if and only if some value repeats or is empty |
| GoldenSuite.ValidateManifest | internal/goldensuite/contract.go:245-334 | Accepts if and only if the manifest is well formed; acceptance implies every pinned header value, both digests and the three lower-case hex hashes, written out |
| GoldenSuite.ValidateQualityGates | internal/goldensuite/contract.go:336-405 | Accepts if and only if the gates are well formed, for any table of required metrics, the counts in the code standing for equality of key sets; acceptance implies every pinned header value, metric, mapping and the signing key, written out |
| GoldenSuite.ValidateCaseSet | internal/goldensuite/contract.go:407-484 | Accepts if and only if ids and normalised inputs are distinct and every case is well formed |
| GoldenSuite.ValidateDir | internal/goldensuite/contract.go:166-206 | Accepts if and only if the three files decode, are pinned and form a well-formed suite; acceptance implies, written out, the file names, both digests, every shared header value and the six metrics with their comparators; the summary never authorises rollout |
| GoldenSuite.CountDecides | internal/goldensuite/contract.go:374-376 | Required keys seen once each are all of them if and only if their count is the table's |
| GoldenSuite.IsLowerHex | internal/goldensuite/contract.go:502-508 | Of the right length, unchanged by lower-casing and hexadecimal if and only if of even right length and only of the digits 0 to 9 and a to f |
| SuiteFacts.CasesPartitionTheSource | internal/goldensuite/contract.go:288-305 | In an accepted suite accepted and excluded ids are disjoint and their union has exactly Source.CaseCount elements |
| SuiteFacts.MetricsAreTheTable | internal/goldensuite/contract.go:361-376 | Accepted metrics are a permutation of the required table, for any table, with its comparators |
| SuiteFacts.SixMetrics | internal/goldensuite/contract.go:27-34 | The metrics of an accepted directory are the six required ones, each once |
| SuiteFacts.OrderDoesNotMatter | internal/goldensuite/contract.go:245-484 | Permuting cases, metrics, blocked ids and excluded cases, with artifact files of any other bytes and their digests pinned again, leaves a suite well formed or not, for any required table |
| SuiteFacts.DirOrderDoesNotMatter | internal/goldensuite/contract.go:166-206 | ... so `ValidateDir` accepts both directories or neither |
| SuiteFacts.AlteredFilesAreRefused | internal/goldensuite/contract.go:276-281 | Under the manifest of an accepted directory, an artifact file whose bytes have another digest is refused, whatever it contains |
| Service.PostgresStore.CreateParameter | internal/store/postgres.go:21-36 | Plumbing: the INSERT under primary key, foreign key and unique index, for every fate of the call, keeping the index |
| Service.PostgresStore.UpdateParameterState | internal/store/postgres.go:61-67 | Plumbing: the UPDATE for every fate of the call: no error on an absent id, refused by the index, or exactly one row's state and time stamp changed |
| Service.PostgresStore.AppendEvent | internal/store/postgres.go:94-108 | Plumbing: the ledger grows by exactly that event or not at all, and an event of an unknown row is refused |
| Service.PostgresStore.GetParameter | internal/store/postgres.go:38-49 | Plumbing: an error, the canonical row of the key, or not found; under the index the row is unique |
| Service.PostgresStore.GetParameterByID | internal/store/postgres.go:51-59 | Plumbing: an error, the row of the id, or not found |
| Service.Cache.GetCanonical | internal/cache/redis.go:22-32 | Plumbing: a record only from a live entry under the key of that namespace and key |
| Service.Cache.SetCanonical | internal/cache/redis.go:34-40 | Plumbing: the record under its own key with five minutes to live, unless the call is lost |
| Service.Cache.InvalidateCanonical | internal/cache/redis.go:42-44 | Plumbing: that one entry is gone, unless the call is lost |
| Service.EventChannel.TrySend | internal/ledger/ledger.go:121-130 | Plumbing: the non-blocking send: appended below capacity, dropped at capacity |
| Service.EventChannel.Receive | internal/api/handler.go:136-139 | Plumbing: the oldest event is taken off, nothing else changes |
| SuiteFacts.EvidenceIsPermitted | internal/goldensuite/contract.go:455-471 | Plumbing: no accepted case cites a blocked document, and only refusals and hand-offs cite none |

The rows marked as plumbing restate one database, cache or channel call, or clauses of a definition; the results rest on
them. `SimpleQuorum.Transit`, `LedgerService.Retire`, `LedgerService.Conclude`, `ValidateManifestHeader`,
`ValidateGatesHeader`, `ValidateMetrics`, `ValidateMapping`, `ValidateCasesHeader` and `ValidateCase` are parts of the
source's functions, made methods of their own. The methods of the service, the quorum and the validators build their
records and entries and make their checks themselves, apart from the definitions they are proved against.

## Left out

- Event uuids: an entry's position in the ledger identifies it; a clash of a fresh event uuid is a lost call.
- Uuid generation and the wall clock: the id of a new row and the clock of each call are inputs. Only `Staleness` needs clocks in order.
- 64-bit versions: a version is an unbounded integer; wrap-around after 2^63 versions of a key is not modelled.
- Error values: kept apart as not found, invalid value and any other failure; the wording of a rejection in the ledger is one constant.
- Writes that land after their call has returned an error: a call takes effect at its step or never.
- Postgres, Redis and JSON internals: a table is a map, serialisation is the identity, expiry is a time stamp per entry.
- Number, JSON and RFC 3339 parsing, dates, URLs, SHA-256, base64, ToLower and TrimSpace: parameters of the model.
- `decodeFile`: its outcome for each of the three files is an input.
- Ties in `occurred_at`: broken by position in the ledger, later first; the source leaves their order open.
- Iteration order over the required metrics: any order, since Go's map iteration has none.
- The store handle: a Go interface may hide other writers of the same tables; here every writer is an operation of the service.
- ListParameterVersions: no method; what it may return is `Numbering.IsListing`.
- GetByID: a plain forwarding call.
- Blocking in Watch: a receive on an empty channel is a round in which nothing happens.
- Request field checks and protobuf conversion in internal/api/handler.go, and the namespace and key filters of Watch, which the handler does not read.
- Closing the event channel: no code does it.
- Server start-up, configuration, migrations runner and transport in cmd/server/main.go.
