# KitchenSense: the kitchen record and its caches

KitchenSense keeps, per household, an append-only log of inventory events with two clocks (when something
happened, when the system learned of it) and a stored projection of that log, one row per lot, which it advances
by folding in only the events that became known since. Beside the record stand three caches guarded by one lock
each: the tenant's signing keys, the storage delegation key, and the database connection.

The project models these four components and proves what they promise over every input, every run and every
interleaving. `dafny verify dfyconfig.toml` checks it.

## How the modules fit together

- `LotKeys`, `Lots`, `LotTables`, `Selections`, `Sorting`, `Snapshots`: the pure fold. Lot keys with the real
  text of their sort key, the commutative monoid of lots, canonical tuples, refusal of leakage, merging of shards.
- `Decimals`: the fold again with Python's 28-digit decimal addition, which never rounds within the column bounds.
- `Records`: the two tables as values, what each query selects and what each write does. `Repositories`: the two
  repositories as classes over one session, each method proved against `Records`.
- `RecordInvariants`, `RecordRuns`, `LateEntries`: runs of repository calls, and what the stored projection is worth.
- `RecordLaws`, `Stock`, `Idempotence`: windows, time, tenancy, conservation, replays.
- `Outcomes`: when each call succeeds and what it leaves, said of the events and rows with the constraints and sizes
  written out. `SortOrder`: what the order of sort keys means for the fields of a lot.
- `KeyCache`, `DelegationKeys`, `VaultBackoff`: the caches as classes, one method per stretch of code between two
  awaits. The `...Runs` modules interleave any number of tasks over the same decisions, and `Perform` and `Serve` in
  each show that the class itself takes those steps. `Spacing` counts events that keep their distance.

## What the proofs found

- `advance` is documented as equivalent to `rebuild`. The code guarantees this only while no event is appended with
  both clocks at or before its household's stored watermark (`RecordRuns.Covered`, which can be evaluated before
  the append). `GuardedRunsReplay` proves the equivalence under the guard and `GuardIsExact` that the guard is exactly
  what an append must meet. `AdvanceIsReplayIff` and `GapIsTheMissedFold` say what is missing otherwise,
  `AdvanceKeepsTheGap` and `RebuildClosesTheGap` that advances never recover it and one rebuild does, and
  `BackdatedPurchaseIsLost` is a run in which `advance` succeeds and is wrong. The exposure is at the level of the
  repository: the HTTP schema refuses a client's `recorded_at` (`api/schemas.py:57-61`), and nothing under `src` calls
  `advance` or `rebuild` yet. A caller of the repository that supplies `recorded_at`, a database stamp behind the
  clock that chose `as_of`, or an `as_of` in the future meets it.
- An empty fold stores no rows, so its watermark is forgotten and the next advance is a rebuild
  (`GetAfterSave`, `LotsNeverVanish`).
- Nothing in the settings keeps an upload ticket's lifetime at or below the delegation key's;
  `TicketsNeverOutliveKeysIff` shows that this is exactly what the comment beside the cache depends on.
- A nonpositive `cache_seconds`, which the settings accept, is the only way a returned signing key can fail to have
  been fresh (`KeysAreFreshIff`, with a run that returns one in `ColdCallIsServed`).

## Representation

- Instants of the record are integers, those of the caches reals. Quantities are integer thousandths, as
  `Numeric(14, 3)` stores them; a delta or total outside the column is refused. A UUID is its 128-bit value, with
  the text that sorting compares.
- Ids generated for rows, the database's `now()`, clock readings, request times, fetched documents, secrets and
  failures are parameters or actions. Rows may change their physical order at any time (`Reorder`).
- Each repository call is atomic, a rejected batch or save leaves the tables as they were, and no call edits the
  log. Constraints are checked before a conflicting key is ignored.
- An action that is not enabled changes nothing, so runs are arbitrary sequences of actions. Any waiting task may
  take a free lock, which allows more interleavings than a fair queue.
- History variables record what a claim speaks about and steer nothing: the events missed since the last restart
  (`missed`), the households whose projection was saved directly since then (`imposed`), the installs, fetches,
  failures and attempts made, the set a key came from (`source`, `seen`, `freshAt`), and the fetch behind a ticket
  (`fetchedFor`, `ownFetch`).

## Model

| member | source | states |
|---|---|---|
| `RecordRuns.GuardedRunsReplay` | src/kitchensense/repositories/inventory.py:324-367 | over every run of append, append_if_new, rebuild, advance and clear, by any households, with `as_of` values in any order and rows in any physical order, in which no appended event is already covered by its household's stored watermark: every stored projection is the full replay at its watermark, and every advance returns the full replay at its own instant unless a total does not fit its column |
| `Outcomes.GuardedCallsLand` | src/kitchensense/repositories/inventory.py:336-367 | over every guarded run, when the totals of each lot's known events fit a row (fourteen digits, a 32-bit count), rebuild and advance both succeed and return the replay |
| `Outcomes.ReplayReadsTheLog` | src/kitchensense/repositories/inventory.py:324-334 | what a projection shows, without any fold: a lot is there if and only if the log holds an event of the household, both clocks at or before the instant, with the lot's product, location, normalised unit, printed date and label, and each field is read off exactly those events |
| `Outcomes.RebuildLandsIff` | src/kitchensense/repositories/inventory.py:336-342 | after any run a rebuild succeeds if and only if, for every lot, its known events number at most 2,147,483,647 and their summed delta, purchases, consumptions and discards are each at most 99,999,999,999.999 in magnitude |
| `Outcomes.AdvanceLandsIff` | src/kitchensense/repositories/inventory.py:344-367 | after any run, for a household no direct save imposed on, an advance to an earlier instant always succeeds and any other succeeds if and only if the totals of every lot's counted events fit a row |
| `RecordRuns.RunsKeepInv` | src/kitchensense/repositories/inventory.py:97-422 | in every reachable state, direct saves of arbitrary snapshots included: the log's ids and idempotency keys never repeat and its rows meet the constraints, the table holds one rule-abiding row per lot and one watermark per household, and each stored projection not imposed by a direct save since its last restart is the fold, counting each event once, of the events known at its watermark less those missed |
| `RecordRuns.StepKeepsInv` | src/kitchensense/repositories/inventory.py:97-422 | each single call, a direct save included, keeps that invariant from any state that has it |
| `RecordRuns.RebuildKeepsInv` | src/kitchensense/repositories/inventory.py:336-342 | a rebuild returns and stores the replay, forgets the household's missed events and no one else's, and can only be refused for size, changing nothing |
| `RecordRuns.AdvanceKeepsInv` | src/kitchensense/repositories/inventory.py:344-367 | an advance from any stored projection keeps the invariant with the same missed events; it can only be refused for size, changing nothing |
| `RecordRuns.AdvanceCounts` | src/kitchensense/repositories/inventory.py:361-365 | the stored projection merged with the window is exactly the fold of what is counted at the new instant |
| `RecordRuns.WindowIsAccepted` | src/kitchensense/repositories/inventory.py:361-365 | whatever is stored, the fold accepts the whole window and yields the two tables merged, within the table's rules |
| `RecordRuns.CountedGrowsByWindow` | src/kitchensense/repositories/inventory.py:223-241 | what is counted at a later instant is what was counted earlier merged with the window, when the missed events were visible earlier |
| `RecordRuns.GapIsTheMissedFold` | src/kitchensense/repositories/inventory.py:223-241 | after any run, a stored projection that no direct save imposed, merged with the fold of its missed events, is the replay at the watermark: the gap is exactly those events |
| `RecordRuns.StoredIsReplayIff` | src/kitchensense/repositories/inventory.py:336-367 | after any run, a stored projection that no direct save imposed equals the replay at its watermark if and only if nothing was missed for its household |
| `RecordRuns.AdvanceIsReplayIff` | src/kitchensense/repositories/inventory.py:344-367 | after any run, for a household no direct save imposed on, an advance returns what rebuild would if and only if it does not start from a stored projection, at or before the new instant, with missed events; with one missed event it never does |
| `RecordRuns.RebuildClosesTheGap` | src/kitchensense/repositories/inventory.py:336-342 | from any reachable state one rebuild closes the gap: what is then stored is the replay, an empty one reading as nothing, and the next advance to any instant returns the replay there |
| `RecordRuns.RebuildStoresReplay` | src/kitchensense/repositories/inventory.py:336-342 | a rebuild over any rows whatever, sound or not, leaves the replay stored |
| `RecordRuns.AdvanceKeepsTheGap` | src/kitchensense/repositories/inventory.py:344-367 | from any reachable state an advance neither shrinks nor widens the gap: one table of missed events, merged with the projection stored before, is the replay at the old watermark, and merged with the one stored after, is the replay at the new one |
| `RecordRuns.OnlySizeIsRefused` | src/kitchensense/repositories/inventory.py:369-414 | after any run, direct saves included, stored projections and replays meet the snapshot table's rules, so a rebuild or advance can be refused for size only; what fits is said of the events by RebuildLandsIff and AdvanceLandsIff |
| `RecordRuns.LotsNeverVanish` | src/kitchensense/repositories/inventory.py:388-391 | an advance of a stored projection never stores the empty projection, so its watermark is not forgotten |
| `RecordRuns.StoredUnitsStay` | src/kitchensense/repositories/inventory.py:166-185 | after any run, normalising a logged unit again leaves the event in its lot |
| `LateEntries.GuardIsExact` | src/kitchensense/repositories/inventory.py:344-367 | while nothing is missed for a household, a successful advance after one more appending call returns the replay if and only if none of the household's new events has both clocks at or before its stored watermark |
| `LateEntries.LateEntryIsLost` | src/kitchensense/repositories/inventory.py:166-185 | whatever the history, direct saves apart, once an event covered by the stored watermark is appended, every successful advance from the watermark on differs from the replay |
| `LateEntries.SecondIsLost` | src/kitchensense/repositories/inventory.py:344-367 | any two constraint-abiding events visible at an instant: log one, rebuild there, log the other; the stored projection is not the replay and the advance to that instant succeeds and is not the replay either |
| `LateEntries.BackdatedPurchaseIsLost` | src/kitchensense/repositories/inventory.py:344-367 | a concrete run: buy, rebuild at 10, enter a purchase stamped 5; neither the stored projection nor the advance to 10, which succeeds, is the replay at 10 |
| `RecordLaws.WindowPartition` | src/kitchensense/repositories/inventory.py:223-241 | `events_known_between(after, as_of)` is known(as_of) minus known(after), as sets and with multiplicity |
| `RecordLaws.BackwardWindowEmpty` | src/kitchensense/repositories/inventory.py:223-241 | a window that ends at or before its start holds nothing |
| `RecordLaws.WindowsTelescope` | src/kitchensense/repositories/inventory.py:213-241 | along any nondecreasing schedule, the first known set and the windows partition the final known set |
| `RecordLaws.ScheduleNeverShows` | src/kitchensense/repositories/inventory.py:344-367 | advancing through any nondecreasing schedule over a fixed log, one window at a time, succeeds and gives the replay at the last instant |
| `RecordLaws.MonotoneInTime` | src/kitchensense/domain/inventory.py:238-278 | over a log meeting the constraints, moving `as_of` forward removes no lot, lowers no count, purchased, consumed, discarded or last clock, raises no first clock, and an `opened_at` once set stays set and only moves earlier |
| `RecordLaws.LogOnlyGrows` | src/kitchensense/repositories/inventory.py:97-158 | no call edits or removes a log entry: the log afterwards is the log before followed by what the call reports as appended |
| `RecordLaws.LogHasProvenance` | src/kitchensense/repositories/inventory.py:166-185 | after any run, every logged event carries a draft of one of the run's appending calls: that call's household, its normalised unit, the supplied recorded clock or else the database clock, and every other field unchanged |
| `RecordLaws.PastIsFixed` | src/kitchensense/repositories/inventory.py:191-221 | over any continuation of any run in which each new event of the household has a clock after t, the events known at t and the projection at t do not change |
| `RecordLaws.HouseholdFrame` | src/kitchensense/repositories/inventory.py:70-76 | any run of calls for other households leaves every known set, window, key lookup, stored projection and replay of this household unchanged |
| `Records.OrderedIsSorted` | src/kitchensense/repositories/inventory.py:78-90 | a query result holds each selected event exactly as often as the log does, recorded clock ascending, within it occurred clock, within both id |
| `Records.OrderedFold` | src/kitchensense/repositories/inventory.py:324-334 | folding a query result in its returned order is folding the selection |
| `Repositories.InventoryEventRepository.Append` | src/kitchensense/repositories/inventory.py:102-112 | appends one event stamped for the given household, or fails on a constraint or duplicate and changes nothing |
| `Repositories.InventoryEventRepository.AppendMany` | src/kitchensense/repositories/inventory.py:114-127 | succeeds if and only if every event meets the constraints and no key or id repeats, and then the log is the old one followed by the batch; otherwise log and rows are as they were |
| `Outcomes.BatchLandsIff` | src/kitchensense/repositories/inventory.py:114-127 | the same of any store, with the event constraints one by one, and which of the two failures is reported |
| `Outcomes.DeliveryOutcome` | src/kitchensense/repositories/inventory.py:129-158 | after any run, exactly what a delivery does: refused outside the constraints, stored and new under an unused key, the original event under the household's own key, refused under another household's |
| `Repositories.InventoryEventRepository.AppendIfNew` | src/kitchensense/repositories/inventory.py:129-158 | appends only under an unused key and says so; otherwise returns the household's own event under the key, or refuses a key used elsewhere, the log unchanged |
| `Repositories.InventoryEventRepository.GetByIdempotencyKey` | src/kitchensense/repositories/inventory.py:254-262 | returns an event of this household under this key, or nothing when the household has none |
| `Repositories.InventoryEventRepository.EventsKnownAsOf` | src/kitchensense/repositories/inventory.py:191-221 | returns exactly the household's events with both clocks at or before the instant, narrowed to a product if given, in query order |
| `Repositories.InventoryEventRepository.EventsKnownBetween` | src/kitchensense/repositories/inventory.py:223-241 | returns, in query order, exactly what known(as_of) holds beyond known(after); nothing when the window is backward |
| `Repositories.InventoryEventRepository.CountKnownAsOf` | src/kitchensense/repositories/inventory.py:264-270 | the count is the sum of `event_count` over the lots of the replay |
| `Repositories.InventoryEventRepository.LatestRecordedAt` | src/kitchensense/repositories/inventory.py:272-283 | the latest recorded clock is the maximum of `last_recorded_at` over the lots of the replay |
| `Repositories.InventoryEventRepository.ProductsKnownAsOf` | src/kitchensense/repositories/inventory.py:285-296 | the products are the product ids of the lots of the replay |
| `Repositories.InventorySnapshotRepository.constructor` | src/kitchensense/repositories/inventory.py:302-304 | both repositories share one session |
| `Repositories.InventorySnapshotRepository.GetStored` | src/kitchensense/repositories/inventory.py:311-322 | nothing if and only if the household has no row; otherwise the greatest `as_of` of its rows and a permutation of their lots in sort-key order |
| `Repositories.InventorySnapshotRepository.ProjectKnownAsOf` | src/kitchensense/repositories/inventory.py:324-334 | the query and the fold together are the replay, for every log: the fold never refuses what the query returns |
| `Repositories.InventorySnapshotRepository.Rebuild` | src/kitchensense/repositories/inventory.py:336-342 | new tables and answer are those of storing the full replay |
| `Repositories.InventorySnapshotRepository.Advance` | src/kitchensense/repositories/inventory.py:344-367 | new tables and answer in all cases: rebuild without a stored projection, replay without storing for an earlier instant, otherwise fold in the window and store |
| `Repositories.InventorySnapshotRepository.Save` | src/kitchensense/repositories/inventory.py:369-414 | replaces the household's rows and no others; a foreign, rule-breaking or oversized snapshot leaves both tables unchanged |
| `Outcomes.SaveLandsIff` | src/kitchensense/repositories/inventory.py:369-414 | a save is refused for another household's snapshot, then for a repeated lot or a row outside its constraints, then for a total outside its column, with the constraints and sizes one by one; for nothing else |
| `Repositories.InventorySnapshotRepository.Clear` | src/kitchensense/repositories/inventory.py:416-422 | drops the household's rows and nothing else |
| `Outcomes.ClearForgets` | src/kitchensense/repositories/inventory.py:416-422 | after a clear the household reads as nothing stored, every other household as before, and the log is untouched |
| `Repositories.Perform` | src/kitchensense/repositories/inventory.py:97-422 | each call performed by the repositories leaves the tables and gives the answer of one step of the runs |
| `Repositories.PerformAll` | src/kitchensense/repositories/inventory.py:97-422 | any sequence of calls on new repositories ends in the state the theorems about runs speak of |
| `RecordInvariants.GetAfterSave` | src/kitchensense/repositories/inventory.py:311-322 | after saving a canonical snapshot, reading returns that snapshot whatever order the rows lie in; an empty one reads back as nothing |
| `RecordInvariants.GetForgetsOrder` | src/kitchensense/repositories/inventory.py:311-322 | two layouts of the same rows read back identically for every household |
| `RecordInvariants.GetCanonical` | src/kitchensense/repositories/inventory.py:311-322 | a sound table reads back a strictly sorted snapshot holding exactly the household's rows, at their one watermark |
| `RecordInvariants.GetReadsOwnRows` | src/kitchensense/repositories/inventory.py:311-322 | the same reading of any table whatever: nothing if and only if no own row, else the latest instant and the own lots, permuted into order |
| `RecordInvariants.SaveFrame` | src/kitchensense/repositories/inventory.py:380-414 | a save leaves every other household's rows and stored projection as they were |
| `RecordInvariants.SavedTableSound` | src/kitchensense/repositories/inventory.py:369-414 | a save that meets the rules keeps one rule-abiding row per lot and one watermark per household |
| `RecordInvariants.FoldMeetsLotRules` | src/kitchensense/models/inventory_snapshot.py:80-98 | every lot folded from rule-abiding events has a positive count, no label without a date and a unit that fits |
| `RecordInvariants.FrozenMeetsTableRules` | src/kitchensense/models/inventory_snapshot.py:80-98 | the frozen fold of rule-abiding events has distinct lot keys, absent values taken as equal, and meets every row rule |
| `Idempotence.ReplaysLeaveNoTrace` | src/kitchensense/repositories/inventory.py:129-158 | any sequence of deliveries by many households leaves the log followed by just the first delivery under each new key, with keys and ids distinct |
| `Idempotence.FirstDelivery` | src/kitchensense/repositories/inventory.py:146-150 | a delivery under a key not seen before is appended and returned as new |
| `Idempotence.ReplayedDelivery` | src/kitchensense/repositories/inventory.py:150-158 | after any deliveries, a replay changes nothing: its household gets the original event, another household is refused |
| `Idempotence.ReplayInAnyRun` | src/kitchensense/repositories/inventory.py:129-158 | in any run of any calls, a replay inserted anywhere leaves log, rows and missed events exactly as without it |
| `Idempotence.SlippedInReplay` | src/kitchensense/repositories/inventory.py:129-158 | inserting a replay anywhere in a sequence of deliveries keeps the first delivery under each key |
| `Idempotence.ReplaysChangeNoProjection` | src/kitchensense/repositories/inventory.py:129-158 | delivery histories that differ only by replays give the same projection for every household at every instant |
| `Idempotence.RunsOfDeliveries` | src/kitchensense/repositories/inventory.py:129-158 | a run of `append_if_new` calls on the repositories leaves the log that the sequence of deliveries leaves |
| `Stock.SumOfFold` | src/kitchensense/domain/inventory.py:255-270 | any measure that merging adds up, summed over a folded table, is that measure summed over what was folded |
| `Stock.EveryLotIsItsEvents` | src/kitchensense/domain/inventory.py:188-278 | a lot exists if and only if an event with its product, location, normalised unit, printed date and label does, and each of its nine fields is the sum, count, minimum or maximum over exactly those events |
| `Stock.StockConserved` | src/kitchensense/domain/inventory.py:238-270 | each lot: quantity is purchased minus consumed minus discarded plus the opened, corrected and moved deltas of its own events |
| `Stock.StockIsSumOfDeltas` | src/kitchensense/domain/inventory.py:299-310 | `quantity_of(p)` on a replay is the sum of the deltas of p's known events |
| `Stock.CountAgrees` | src/kitchensense/repositories/inventory.py:264-270 | the number of known events is the sum of the lots' event counts |
| `Stock.LatestAgrees` | src/kitchensense/repositories/inventory.py:272-283 | the latest recorded clock over the log is the latest over the lots |
| `Stock.ProductsAgree` | src/kitchensense/repositories/inventory.py:285-296 | the products of the known events are the products of the lots |
| `Snapshots.ShardedReplay` | src/kitchensense/domain/inventory.py:375-399 | for any split of an event multiset into shards with their own `as_of` and any binary merge tree, merging the shard folds equals one fold of all events, in any order, at the maximum `as_of` |
| `Snapshots.JoinIsFold` | src/kitchensense/domain/inventory.py:385-399 | combining the folds of A and B is the fold of A + B at the later instant |
| `Snapshots.FoldForgetsOrder` | src/kitchensense/domain/inventory.py:375-382 | folding any permutation of a history gives the identical snapshot |
| `Snapshots.FoldInChunks` | src/kitchensense/domain/inventory.py:330-372 | applying B to the fold of A is the fold of A + B |
| `Snapshots.AppliedExactly` | src/kitchensense/domain/inventory.py:350-372 | applying succeeds if and only if `as_of` does not move back, every event is of the household and both its clocks are at or before `as_of` |
| `Snapshots.FirstOffenderDecides` | src/kitchensense/domain/inventory.py:350-372 | the first event that does not belong decides which error is raised |
| `Snapshots.FoldedExactly` | src/kitchensense/domain/inventory.py:375-382 | a fold succeeds if and only if every event belongs, and is then the frozen table of those events |
| `Snapshots.ApplyEvents` | src/kitchensense/domain/inventory.py:330-372 | the dictionary loop computes the stored table merged with the fold of the events, or the first refusal |
| `Snapshots.FoldEvents` | src/kitchensense/domain/inventory.py:375-382 | folding is applying to the empty snapshot |
| `Snapshots.CombineSnapshots` | src/kitchensense/domain/inventory.py:385-399 | the dictionary loop computes the merge of both tables at the later instant, or refuses different households |
| `Snapshots.CombinedExactly` | src/kitchensense/domain/inventory.py:385-399 | two snapshots merge if and only if they are of one household, into that household's, sorted, at the later instant |
| `Snapshots.FreezeLots` | src/kitchensense/domain/inventory.py:316-323 | whatever order the dictionary yields its lots in, the result is the one strictly sorted tuple of them |
| `Snapshots.FreezeCanonical` | src/kitchensense/domain/inventory.py:316-323 | freezing sorts strictly and loses no lot |
| `Snapshots.FreezeUnique` | src/kitchensense/domain/inventory.py:316-323 | a strictly sorted snapshot is the frozen form of its own table: one table, one tuple |
| `LotTables.FoldTableConcat` | src/kitchensense/domain/inventory.py:19-31 | fold(A + B) is fold(A) merged with fold(B) |
| `LotTables.FoldTablePermutation` | src/kitchensense/domain/inventory.py:19-31 | the fold does not depend on the order of the events |
| `LotTables.FoldSplit` | src/kitchensense/domain/inventory.py:19-31 | splitting a selection of the log in two splits its fold in two |
| `LotTables.MergeAssociative` | src/kitchensense/domain/inventory.py:255-278 | merging is associative |
| `LotTables.MergeCommutative` | src/kitchensense/domain/inventory.py:255-278 | merging is commutative |
| `LotKeys.SortKeyInjective` | src/kitchensense/domain/inventory.py:198-206 | two lot keys have the same sort key if and only if they are the same key |
| `LotKeys.KeyOrder` | src/kitchensense/domain/inventory.py:198-206 | comparing sort keys as tuples of strings is a strict total order on lot keys |
| `SortOrder.SortKeyReadsFields` | src/kitchensense/domain/inventory.py:198-206 | what the order of sort keys means: product number, then location in alphabetical order, then unit, then undated before dated and earlier before later, then no label, best before, use by |
| `LotKeys.NormalizeUnitIdempotent` | src/kitchensense/domain/inventory.py:119-121 | normalising a unit twice is normalising it once |
| `LotKeys.NormalizeUnitMeans` | src/kitchensense/domain/inventory.py:119-121 | a normalised unit is what lies between the surrounding whitespace, its ASCII capitals made small |
| `LotKeys.CaseNeverShows` | src/kitchensense/domain/inventory.py:119-121 | units that differ only in the case of ASCII letters are one unit |
| `Decimals.FoldNeverRounds` | src/kitchensense/db/base.py:25-27 | up to 10^14 events with deltas of at most 99,999,999,999.999: the fold with 28-digit half-even addition equals the exact fold |
| `Decimals.MergeOrderNeverRounds` | src/kitchensense/domain/inventory.py:255-270 | within the same bound, rounded addition over any merge tree of shards equals the exact fold of all events |
| `Decimals.FoldIgnoresOrderRounded` | src/kitchensense/api/schemas.py:71 | within the same bound, the rounded fold does not depend on the order of the events |
| `Decimals.RoundedExact` | src/kitchensense/api/schemas.py:71 | an integer of magnitude below 10^28 survives rounding to 28 digits |
| `Decimals.RoundedIsNearest` | src/kitchensense/api/schemas.py:71 | rounding gives a nearest multiple of the last digit kept, the even one of two equally near |
| `Decimals.QuantumKeepsDigits` | src/kitchensense/api/schemas.py:71 | a magnitude of more than 28 digits keeps exactly 28, by a power of ten |
| `Decimals.RoundingBegins` | src/kitchensense/api/schemas.py:71 | just beyond 28 digits sums do round, so the bound is where exactness ends |
| `KeyCacheRuns.ReturnedKeysWereFresh` | src/kitchensense/auth/jwks.py:77-125 | under every interleaving of calls, fetches and failures, a returned key was, under the asked id, in a set that was the installed one and younger than `cache_seconds` at some instant within the call, if and only if `cache_seconds` is positive |
| `KeyCacheRuns.KeysAreFreshIff` | src/kitchensense/auth/jwks.py:77-125 | every run returns only keys fresh at some instant of their call, if and only if `cache_seconds` is positive |
| `KeyCacheRuns.ColdCallIsServed` | src/kitchensense/auth/jwks.py:77-150 | under any policy, one that makes freshness impossible included, there is a run in which a cold call is answered with a key |
| `KeyCacheRuns.ReReadSound` | src/kitchensense/auth/jwks.py:95-99 | the re-read under the lock without an expiry check returns a key from a set installed during this very call |
| `KeyCacheRuns.AppearedDuringCall` | src/kitchensense/auth/jwks.py:95-99 | a key id that was missing and is now present came with a set installed since the call began |
| `KeyCacheRuns.RefusalsAreEarned` | src/kitchensense/auth/jwks.py:77-112 | a call is refused only for a blank id, a fetch of its own that failed or brought no usable key between its start and the refusal, or an id that the installed set lacked when that set was fetched during the call or within `min_refresh_seconds` |
| `KeyCacheRuns.ReturnedKeysWerePublished` | src/kitchensense/auth/jwks.py:77-150 | a returned key is one that a document fetched in the run publishes under the id asked for |
| `KeyCacheRuns.DocumentsAreTraced` | src/kitchensense/auth/jwks.py:69-150 | the stored configuration and every installed key set are documents that arrived in the run, and every returned configuration is the stored one |
| `KeyCacheRuns.CallOutcome` | src/kitchensense/auth/jwks.py:86-117 | what a new call gets, from the age and content of the latest installed set: a refusal without an id, its key, the unknown-key path, or the lock |
| `KeyCacheRuns.AcquireOutcome` | src/kitchensense/auth/jwks.py:93-125 | what a task does with the lock, on each path: its key, a refusal within the refresh limit, a fetch, discovering the configuration first if and only if there is none |
| `KeyCacheRuns.KeysOutcome` | src/kitchensense/auth/jwks.py:106-150 | what an arriving key set, or a failure, installs and answers: the published key, the unknown-key path, or a refusal |
| `KeyCacheRuns.ConfigurationOutcome` | src/kitchensense/auth/jwks.py:69-75 | what an arriving configuration, or a failure, stores and answers |
| `KeyCacheRuns.InstallsKeepApart` | src/kitchensense/auth/jwks.py:77-150 | consecutive installs are at least `cache_seconds` or at least `min_refresh_seconds` apart, and a window of length W holds at most W divided by the smaller, plus one |
| `KeyCacheRuns.ColdCallersInstallOnce` | src/kitchensense/auth/jwks.py:114-125 | however many callers find the cache cold, one install happens until the shorter limit has passed |
| `KeyCacheRuns.LockHasOneHolder` | src/kitchensense/auth/jwks.py:69-150 | a task is fetching if and only if it holds the lock, and no task waits for a lock it holds |
| `KeyCacheRuns.HistoryIsKept` | src/kitchensense/auth/jwks.py:69-150 | over any continuation of any run the configuration is written once, installs are only added, and the key set never becomes empty again |
| `KeyCacheRuns.RunsKeepInv` | src/kitchensense/auth/jwks.py:69-150 | every reachable state: the cache is the latest install, installs are spaced and nonempty, and every task's recorded facts hold |
| `KeyCache.KeySetExact` | src/kitchensense/auth/jwks.py:132-143 | a key id is cached if and only if some entry carries it with a parseable key, and it maps to the last such entry's key |
| `KeyCache.KeySource.constructor` | src/kitchensense/auth/jwks.py:64-67 | a new source has no configuration, no keys and fetch time zero |
| `KeyCache.KeySource.CheckCached` | src/kitchensense/auth/jwks.py:114-125 | a key is answered only while the set is unexpired and only as the fetched document publishes it, a miss only for an id that document does not publish, and a refresh is asked for if and only if nothing usable is held or it expired |
| `KeyCache.KeySource.CheckUnknown` | src/kitchensense/auth/jwks.py:95-107 | an id the held document publishes is answered with its key; for any other, a refresh is allowed if and only if `min_refresh_seconds` have passed |
| `KeyCacheRuns.Perform` | src/kitchensense/auth/jwks.py:69-150 | each stretch between two awaits, performed on the source, is one step of the runs, and stores a configuration only where none was stored |
| `KeyCacheRuns.Serve` | src/kitchensense/auth/jwks.py:69-150 | any interleaving of tasks over a new source ends in the world the theorems about runs speak of |
| `KeyCache.KeySource.RefreshKeys` | src/kitchensense/auth/jwks.py:132-149 | the loop installs the document at this instant if and only if some entry is usable, and otherwise leaves the cache unchanged |
| `DelegationKeyRuns.TicketsNeverOutliveKeysIff` | src/kitchensense/storage/receipts.py:220-272 | no run, under any interleaving and any order of request times, issues a ticket that outlives its key, if and only if `upload_sas_ttl` is at most `delegation_key_ttl` |
| `DelegationKeyRuns.TicketWithinKeyIff` | src/kitchensense/storage/receipts.py:220-272 | each issued ticket expires within its key if and only if it came from the cached key or the lifetimes allow it |
| `DelegationKeyRuns.TicketTimes` | src/kitchensense/storage/receipts.py:164-203 | every ticket, in every run, starts the skew before its request and expires a ticket lifetime after it, is signed with a key asked for at a recorded fetch, is issued only by a configured store, and starts no earlier than its key if and only if its request is no earlier than the fetch |
| `DelegationKeyRuns.RequestOutcome` | src/kitchensense/storage/receipts.py:164-231 | what a new request gets at once: a refusal on an unconfigured store, a ticket while the last fetched key outlives it, otherwise a wait |
| `DelegationKeyRuns.ArrivalOutcome` | src/kitchensense/storage/receipts.py:242-272 | a fetched key gives the request its ticket and is recorded; a failure refuses it and leaves the cache |
| `DelegationKeyRuns.KeyHasStartedIff` | src/kitchensense/storage/receipts.py:237-240 | the signing key was fetched for some request, and has started by this request if and only if the request lags that one by at most the skew |
| `DelegationKeyRuns.FetchesKeepApart` | src/kitchensense/storage/receipts.py:261-266 | the request times of successful fetches grow by at least key_ttl - sas_ttl each, whatever order requests come in, which bounds the fetches in a window |
| `DelegationKeyRuns.FetchStartsIff` | src/kitchensense/storage/receipts.py:228-240 | under the lock a request fetches if and only if no key was ever fetched or its time reaches the retirement of the last one |
| `DelegationKeyRuns.FailureLeavesNoTrace` | src/kitchensense/storage/receipts.py:220-260 | a request whose fetch fails, after waiting for the lock through any steps of others (or one that is served from the cached key or still waits), leaves cache, lock, fetches and every other request, after whatever follows, as in the run without it |
| `DelegationKeyRuns.LockHasOneHolder` | src/kitchensense/storage/receipts.py:231-272 | a request is fetching if and only if it holds the lock |
| `DelegationKeyRuns.RunsKeepInv` | src/kitchensense/storage/receipts.py:220-272 | every reachable state: the cache is the renewal by the last successful fetch, fetches are spaced, each ticket names the fetch behind its key |
| `DelegationKeys.ReceiptBlobStore.constructor` | src/kitchensense/storage/receipts.py:112-119 | a new store has no key, so nothing is usable |
| `DelegationKeys.ReceiptBlobStore.CheckKey` | src/kitchensense/storage/receipts.py:228-235 | the cached key is handed out if and only if it expires later than a ticket signed now |
| `DelegationKeys.ReceiptBlobStore.FetchReturned` | src/kitchensense/storage/receipts.py:237-272 | after a success the new key serves exactly the requests whose tickets end before it does; a failure changes nothing |
| `DelegationKeyRuns.Perform` | src/kitchensense/storage/receipts.py:164-272 | each stretch between two awaits, performed on the store, is one step of the runs |
| `DelegationKeyRuns.Serve` | src/kitchensense/storage/receipts.py:164-272 | any interleaving of requests over a new store ends in the world the theorems about runs speak of |
| `VaultBackoffRuns.ReadsBackOff` | src/kitchensense/db/provider.py:112-161 | under every interleaving, no vault read starts within the cooldown after a failed one, none after a success, none while the environment supplies a URL |
| `VaultBackoffRuns.OneReadAtATime` | src/kitchensense/db/provider.py:91-110 | at most the last read is pending, and a task is reading if and only if it holds the lock |
| `VaultBackoffRuns.ReadStartsIff` | src/kitchensense/db/provider.py:112-136 | under the lock a read starts if and only if nothing is resolved, the environment is silent and the last read failed at least a cooldown ago |
| `VaultBackoffRuns.ReadsPerWindow` | src/kitchensense/db/provider.py:156-161 | a window of length W holds at most W divided by the cooldown, plus one, reads, however many callers there are |
| `VaultBackoffRuns.FactoryIsKept` | src/kitchensense/db/provider.py:91-110 | once a session factory exists, it is kept over any continuation and no further read begins |
| `VaultBackoffRuns.ServedUrlsAreTraced` | src/kitchensense/db/provider.py:91-154 | in every run all served callers have one URL, the factory's; it was brought by a vault read or set in the environment during the run, and the provider's source says which |
| `VaultBackoffRuns.CallOutcome` | src/kitchensense/db/provider.py:97-98 | a new caller gets the existing factory, or waits, and disturbs nothing |
| `VaultBackoffRuns.AcquireOutcome` | src/kitchensense/db/provider.py:100-136 | what a caller is told under the lock: the factory, the environment's URL, the last failed read's own reason within the cooldown, or a read |
| `VaultBackoffRuns.ReadOutcome` | src/kitchensense/db/provider.py:131-161 | a secret serves its caller and becomes the factory, from the vault, with no error kept; a failure refuses with its reason and keeps it |
| `VaultBackoffRuns.RunsKeepInv` | src/kitchensense/db/provider.py:91-161 | every reachable state: attempts follow one another only after failure and cooldown, and the lock, the provider and the last attempt agree |
| `VaultBackoff.Database.constructor` | src/kitchensense/db/provider.py:76-85 | a new provider has resolved nothing and owes no wait |
| `VaultBackoff.Database.ResolveUrl` | src/kitchensense/db/provider.py:112-130 | with nothing resolved: a URL from the environment always wins; without it the vault is asked if and only if the last failed read is at least a cooldown old, and otherwise that read's own reason is given |
| `VaultBackoff.Database.VaultFailed` | src/kitchensense/db/provider.py:156-161 | from now until the cooldown is over every later decision without an environment is this reason, and from then on it is to ask the vault |
| `VaultBackoffRuns.Perform` | src/kitchensense/db/provider.py:91-161 | each stretch between two awaits, performed on the provider, is one step of the runs |
| `VaultBackoffRuns.Serve` | src/kitchensense/db/provider.py:91-161 | any interleaving of callers over a new provider ends in the world the theorems about runs speak of |

## Left out

- LotKeys.NormalizeUnitIdempotent: `NormalizeUnit` strips all of Python's whitespace but lower-cases ASCII letters
  only, because full Unicode case mapping is a table outside the repository.
- Day: a day is any year up to 9999, month up to 12 and day up to 31, a superset of the real calendar.
- RecordRuns.RunsKeepInv: says nothing of what a directly saved snapshot means, only that the next restart replaces
  it; the source accepts any snapshot there.
- VaultBackoffRuns.ReadsBackOff: covers callers without cancellation or `dispose`, and URLs that parse; a timed-out
  read whose worker thread keeps running in the background counts as ended.
- SQL sessions, transaction isolation, triggers, migrations, foreign keys to households and products.
- An event's source, confidence and metadata: carried through, never used by the fold.
- `get_event`, `InventorySnapshot.lot` and the in-stock filter: they would only add easy members.
- HTTP routes, request validation, error translation and health endpoints.
- Token signature and claim checks, key parsing, discovery-document parsing and issuer templating, SAS signing and
  the Azure clients: a fetch is a step that brings a value or fails.
- The receipt upload table, blob names and household id derivation.
- Cancellation of tasks, `dispose`, `warm` and `check`, and URL normalisation.
- Liveness: nothing is claimed about a fetch or a waiting task eventually finishing.
