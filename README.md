# scrape-solscan: resumable epoch harvesting, modelled in Dafny

`scrape-solscan.js` harvests one record per Solana epoch from a block
explorer into `epochs.csv`, and resumes across runs. This project models
its core: the epoch store (the epoch list and its two timestamp indices),
the buffered CSV flush policy, and the harvest loop `testRange` with its
skip, retry and stop rules. The page scraper is replaced by a script of
fetch outcomes, and each CSV write is recorded as the list of rows it
would contain.

Files:

- `wrappers.dfy`: `Option`, used for values that JavaScript leaves undefined.
- `epoch_store.dfy` (module `EpochStore`): the `Epoch` record, `isEpochLatest`, `addEpochToList` and the row fold of `readEpochsCsv`, as functions over values.
- `csv_order.dfy` (module `CsvOrder`): the row order of `writeEpochsCsv`.
- `flush_policy.dfy` (module `FlushPolicy`): the gate of `writeEpochsCsv` and the threshold of `bufferWriteEpochsCsv`.
- `harvest.dfy` (module `Harvest`): one pass of the `testRange` loop (`Step`), the whole loop (`Run`) and the final write.
- `harvest_lemmas.dfy` (module `HarvestLemmas`): what the loop guarantees.
- `scraper.dfy` (module `Scraper`): class `Scraper`. It holds the script's globals as fields and has one method per function that updates them. Each method is proved equal to the value-level definition.

Points where the model follows the code closely:

- A scraped record is stored with a plain assignment (line 162). It does not go through `addEpochToList`, so the timestamp indices are not updated for scraped epochs. It is stored under its own `epochNum`, but the latest-check right after it (line 164) looks at the loop cursor `epNum`. The model keeps both keys.
- `retriesRemaining` is never declared. It is `None` until line 184 first assigns it. A failed fetch before that reads it and throws out of `testRange` (exit `ThrewReferenceError`), so the final write at line 186 does not happen.
- `next_epoch_num` counts as "no successor" only when it is absent or `""` (line 95).
- Keys are sorted as strings (line 56), but `Object.values` lists array-index keys in ascending numeric order (section 10.1.11.1 of ECMA-262, OrdinaryOwnPropertyKeys). So rows are written in ascending epoch order. `ReinsertAnyOrder` shows that the order of re-insertion cannot matter.

Behaviour of the code worth noting:

- The final `writeEpochsCsv` (line 186) is not unconditional: it writes nothing while `pendingWrites` is 0. A fetch that reaches the latest epoch is not counted. So when the latest epoch is fetched right after a flush, or is the first fetch of a run, its record is stored in memory but not written. `LatestFetchWrittenOnlyIfPending` states this.
- The retry budget is reset only after a successful fetch of an epoch that is not the latest (line 184). A failure before any success throws.
- The loop stops when the record stored under the cursor `epNum` (normally the scraped one) has no successor, that is, when its `next_epoch_num` is absent or empty (line 164). A scraped record numbered otherwise than the cursor is stored under its own number, and the test then looks at whatever the cursor's entry holds, not at that record.

## Model

| member | source | states |
|---|---|---|
| `EpochStore.IsEpochLatest` | scrape-solscan.js:90-99 | false for an absent epoch; true for a stored epoch whose next-epoch cell is absent or empty; false when that cell is non-empty |
| `EpochStore.IsKnownTerminal` | scrape-solscan.js:151 | the loop's skip test holds exactly for a stored epoch with a non-empty next-epoch cell |
| `EpochStore.AddEpoch` | scrape-solscan.js:44-48 | the epoch is stored under its number, and both of its timestamps map to that number, overwriting earlier entries; all other keys of the three maps keep their values; the store invariant is kept |
| `EpochStore.Load` | scrape-solscan.js:84-86 | after the row fold, an epoch number is stored iff it was stored before or some row carries it; the store invariant is kept |
| `EpochStore.LoadLastRowWins` | scrape-solscan.js:84-86 | when several rows carry one epoch number, the last of them is the one stored |
| `EpochStore.LoadKeepsOtherEpochs` | scrape-solscan.js:84-86 | an epoch number that no row carries keeps its earlier entry, or stays absent |
| `EpochStore.LoadKeepsOtherTimestamps` | scrape-solscan.js:84-86 | a timestamp that no row carries, as first-block or last-block timestamp, keeps its entry in that index, or stays absent |
| `EpochStore.LoadFirstTimestampLastRowWins` | scrape-solscan.js:84-86 | when several rows carry one first-block timestamp, the index of line 46 maps it to the epoch number of the last of them |
| `EpochStore.LoadLastTimestampLastRowWins` | scrape-solscan.js:84-86 | when several rows carry one last-block timestamp, the index of line 47 maps it to the epoch number of the last of them |
| `CsvOrder.AscendingKeys` | scrape-solscan.js:55-61 | the property order of an object with epoch-number keys: strictly ascending, each key exactly once |
| `CsvOrder.ObjectValues` | scrape-solscan.js:61 | `Object.values` lists one value per key, the i-th being the value at the i-th smallest key |
| `CsvOrder.Reinsert` | scrape-solscan.js:57-60 | the reduce copies exactly the listed keys, each with the epoch-list value |
| `CsvOrder.ReinsertAnyOrder` | scrape-solscan.js:55-61 | re-inserting all keys in any order, the string-sorted order included, rebuilds the same object, so `Object.values` is unchanged |
| `CsvOrder.Snapshot` | scrape-solscan.js:55-61 | the rows `writeEpochsCsv` writes: one row per stored epoch, each a stored record |
| `CsvOrder.SnapshotAscending` | scrape-solscan.js:55-61 | the written rows list every stored epoch exactly once, in strictly ascending numeric epoch order |
| `CsvOrder.SnapshotIsTheAscendingListing` | scrape-solscan.js:55-61 | any list of exactly the stored epochs that is strictly ascending by epoch number is the written row list, so the file is determined by the epoch list alone |
| `CsvOrder.NumericNotLexicographic` | scrape-solscan.js:55-61 | epochs 7, 42, 3 are written in the order 3, 7, 42 |
| `FlushPolicy.AfterWrite` | scrape-solscan.js:50-67 | `writeEpochsCsv` leaves the file alone iff no write is pending; otherwise it writes exactly one snapshot of the epoch list |
| `FlushPolicy.AfterBufferWrite` | scrape-solscan.js:69-75 | at or above the buffer size it writes the snapshot and resets the counter to 0; below it, nothing changes |
| `FlushPolicy.WriteKeepsAscending` | scrape-solscan.js:50-75 | a write or buffered write of a list that stores each epoch under its own number keeps every written file in strictly ascending epoch order |
| `Harvest.Step` | scrape-solscan.js:150-184 | one pass of the loop; its own contract says that a pass goes on only while the run flag is set and reports an interruption exactly when it is clear; `StepFetchDecision` (skip or fetch), `StepOnSuccess` (a successful fetch), `StepRetryBudget` (a failed fetch) and `StepDelayFlag` state the rest |
| `Harvest.StepKeepsKeyed` | scrape-solscan.js:162 | a pass only adds epochs to the list, and keeps every epoch stored under its own number |
| `Harvest.Run` | scrape-solscan.js:149-185 | the loop always ends (measure: fetch outcomes left, then stored epochs beyond the cursor), and it never removes a fetch attempt |
| `Harvest.StepProgress` | scrape-solscan.js:150-154 | each pass that goes on either consumes a fetch outcome or passes a stored epoch |
| `Harvest.Start` | scrape-solscan.js:147-148 | the loop starts with the cursor one before epoch 95, no delay pending and no fetches made |
| `Harvest.FinalWrites` | scrape-solscan.js:186 | after a throw nothing more is written; otherwise the final write happens iff a write is pending, and it writes the snapshot of the final epoch list |
| `HarvestLemmas.StepFetchDecision` | scrape-solscan.js:150-160 | a pass fetches iff the loop may run, the next epoch is not known to have a successor and an outcome is left; the fetch is for the next epoch and records the delay flag; a known epoch with a successor is only passed over |
| `HarvestLemmas.RunConsumesScriptInOrder` | scrape-solscan.js:158-160 | a run only appends to the list of fetches, and consumes the scripted outcomes in order, one per fetch |
| `HarvestLemmas.FirstUnsettled` | scrape-solscan.js:150-154 | the least epoch from n on that is not known to have a successor; every epoch before it is known to have one |
| `HarvestLemmas.FirstFetch` | scrape-solscan.js:150-157 | the first fetch of a run is for the first epoch after the cursor not known to have a successor, and it is delayed iff delayNeeded was already set |
| `HarvestLemmas.FirstFetchFromStart` | scrape-solscan.js:147-157 | from the start of `testRange` the first fetch is for the first unsettled epoch from 95 on (95 itself unless it is known to have a successor), and it is not delayed |
| `HarvestLemmas.StepKeepsTerminal` | scrape-solscan.js:151-162 | one pass never fetches an epoch known to have a successor, and leaves it with one, if the fetch of that pass does not report it as having none |
| `HarvestLemmas.TerminalNeverRefetched` | scrape-solscan.js:151-162 | over a whole run, an epoch known to have a successor is never fetched and keeps a successor, if no fetch reports it as having none |
| `HarvestLemmas.StepKeepsPendingBelowBuffer` | scrape-solscan.js:168-169 | the pending-write counter stays below the buffer size at every loop head |
| `HarvestLemmas.RunFlushCount` | scrape-solscan.js:168-169 | counting every successful fetch except one that reached the latest epoch, a run writes once per 5 counted fetches, and the counter ends at the remainder |
| `HarvestLemmas.StepRetryBudget` | scrape-solscan.js:171-184 | a failed fetch that goes on uses one unit of a positive budget and leaves the cursor in place, so the same epoch comes next; a successful fetch that goes on resets the budget to 2 (one that reaches the latest epoch leaves the loop first); a skip leaves it alone; giving up means the budget was 0 |
| `HarvestLemmas.FailingEpochTriedThreeTimes` | scrape-solscan.js:171-184 | after a success, an epoch that keeps failing is fetched three times, then the loop stops with nothing stored or counted |
| `HarvestLemmas.ThrowsIffFirstFetchFails` | scrape-solscan.js:172-184 | the loop throws iff the budget was never assigned and the first fetch of the run fails; it then throws at that fetch |
| `HarvestLemmas.StepDelayFlag` | scrape-solscan.js:155-163 | a fetch is delayed iff delayNeeded is set; the flag is set by a successful fetch and never cleared |
| `HarvestLemmas.StepKeepsDelayMatchingBudget` | scrape-solscan.js:155-184 | at each loop head delayNeeded is set iff retriesRemaining has been assigned |
| `HarvestLemmas.RunKeepsKeyed` | scrape-solscan.js:149-185 | a run only adds epochs to the list, and keeps every epoch stored under its own number |
| `HarvestLemmas.StepKeepsWritesAscending` | scrape-solscan.js:162-169 | a pass that writes writes a list in strictly ascending epoch order |
| `HarvestLemmas.RunKeepsWritesAscending` | scrape-solscan.js:149-186 | every file written during the loop and by the final write lists its epochs in strictly ascending order, given a list keyed by epoch number |
| `HarvestLemmas.RunKeepsValid` | scrape-solscan.js:149-185 | a run keeps the store invariant (the indices, which it does not touch, still point at stored epochs) and the ascending order of the write log |
| `HarvestLemmas.InterruptedOnlyBeforeTheFirstPass` | scrape-solscan.js:149 | with the run flag clear the loop is left at once, unchanged; with it set the loop never ends by interruption |
| `HarvestLemmas.StepOnSuccess` | scrape-solscan.js:161-169 | a successful fetch stores the record under its own number; the loop stops iff the record now under the cursor has no successor, and then with the counter and write log unchanged; otherwise the counter and log are those of `AfterBufferWrite` after counting the fetch, and the budget is reset to 2 |
| `HarvestLemmas.LatestFetchWrittenOnlyIfPending` | scrape-solscan.js:162-186 | fetching the latest epoch stores it and stops the loop without counting it; the final write then writes nothing if no write was pending, and otherwise the list including that record |
| `Scraper.Scraper.constructor` | scrape-solscan.js:13-17 | the globals start empty, with no pending write, the run flag set and the retry variable undefined |
| `Scraper.Scraper.AddEpochToList` | scrape-solscan.js:44-48 | updates the three maps in place exactly as `AddEpoch`, keeping the class invariant |
| `Scraper.Scraper.WriteEpochsCsv` | scrape-solscan.js:50-67 | appends to the write log exactly as `AfterWrite`, keeping the class invariant (every written file in ascending epoch order) |
| `Scraper.Scraper.BufferWriteEpochsCsv` | scrape-solscan.js:69-75 | updates the counter and the write log exactly as `AfterBufferWrite`, keeping the class invariant |
| `Scraper.Scraper.ReadEpochsCsv` | scrape-solscan.js:77-87 | a missing file changes nothing; otherwise each row goes through `AddEpochToList` in file order, giving `Load`; keeps the class invariant |
| `Scraper.Scraper.OnSigint` | scrape-solscan.js:19-23 | clears the run flag and calls `writeEpochsCsv`, keeping the class invariant |
| `Scraper.Scraper.CountFetch` | scrape-solscan.js:168-184 | after a successful fetch of an epoch that is not the latest, counts it, flushes exactly as `AfterBufferWrite` and resets the retry budget to 2 |
| `Scraper.Scraper.Pass` | scrape-solscan.js:150-184 | one pass of the loop body changes the globals and the loop's locals exactly as `Step`, and leaves the loop exactly where `Step` stops, with its reason |
| `Scraper.Scraper.HarvestLoop` | scrape-solscan.js:147-185 | the while loop updates the epoch list, counter, retry variable and write log, and returns the fetches made and the exit reason, exactly as `Run` from `Start`; keeps the class invariant |
| `Scraper.Scraper.TestRange` | scrape-solscan.js:145-187 | load the CSV rows, run the loop, then do the final write unless the loop threw; the timestamp indices are those left by loading; keeps the class invariant, so every CSV file it writes lists the epochs in ascending order |

## Left out

- `scrapeEpochPage`, `sp` and the Playwright browser in `main`: browser automation and HTML selection. They are replaced by a script of outcomes, `Ok(record)` or `Fail`, consumed one per fetch.
- `unixTime`: date parsing and floating-point division. Timestamps are opaque string keys.
- `randomDelay` and `sleep`: random timers. Only the `delayNeeded` flag is kept, recorded with each fetch.
- `csv-parse`, `csv-stringify` and the `fs` calls: an input file is `None` (missing) or the list of decoded rows, and each write appends its rows to a log. A CSV file that fails to parse is not modelled.
- A write that throws inside the loop's `try` would be caught as a fetch failure. Writes are modelled as never failing.
- The SIGINT handler's timing: the signal arrives asynchronously, between any two awaited steps. In the model `programCanRun` keeps one value for the whole of `TestRange`, so `Interrupted` can only be the exit of the first pass (`InterruptedOnlyBeforeTheFirstPass`); an interruption after the first pass is not modelled. `OnSigint` is modelled on its own. That `process.once` handles only the first signal is not modelled.
- Epoch numbers are modelled as natural numbers. A scraped page whose epoch-number text is not a canonical integer, or is at least 2^32 - 1 (not an array index), would change key order. That case is not modelled.
- `Harvest.Run` stops with `ScriptExhausted` when the scripted outcomes run out. That is the end of the modelled run, not a behaviour of the program, and no final write is modelled for it.
- `testEpoch`: debug code whose calls are commented out.
- `Scraper.Scraper.HarvestLoop`: the loop of `testRange` is a separate method so that each proof stays small. `TestRange` calls it between loading and the final write. For the same reason the loop body is the method `Pass`, and the tail of a counted fetch is `CountFetch`.
- `HarvestLemmas.TerminalNeverRefetched`: assumes that no fetch reports an epoch already known to have a successor as having none. Without that assumption, a record for another epoch could overwrite that epoch's entry at line 162.
