# ZUtils core, modelled and proved in Dafny

ZUtils is a Hytale server library. This project models its core and proves properties of the model. The core consists of:

- **The block-placement ledger** (`RegionBlockStorage`, `ChunkBlockData`): a write-behind, per-chunk set of 64-bit packed block positions with a dirty flag, cached under `world_cx_cz` keys and written to `region_<cx>_<cz>.dat` bodies.
- **The asynchronous task layer** (`AsyncContext`, `UtilsAsync`), modelled sequentially: a running flag, an executor FIFO, scheduler timers, inline fallback, the first-run latch of `scheduleAtFixedRate`, and the get-or-create registry.
- **Rule engines**: `DurationValue` parsing and serialisation, `PlayerUtils` cooldowns and command routing, the three validators on top of `ValidatorUtil.match`, the legacy colour-code state machine of `FormatMessage.parseLegacy`, the `Reward` string grammar, the `AdvancedRewards` amount and dispatch rules, the `EventChannel` listener list, and the `EconomyApi` registry.

Modules and files:

- `wrappers.dfy`: `Option`, `Result`, and the Java exceptions the core throws.
- `java_data.dfy`: Java `int`/`long` and big-endian `DataOutputStream` encoding.
- `java_text.dfy`: `Integer.toString`/`parseInt`, `String.split`, `trim`, `toLowerCase` and `replace`.
- `game_types.dfy`: the host's item, stack and block records.
- One module per core source file.

Effects the core asks of the host become parameters:

- the permission service, the clock and the command manager
- the regex engine (`RegexEngine`: compiles / full match)
- random draws (`roll`, `rolls`, `picks`)
- a listener that throws (`throws`)
- how a save's write ends (`WriteOutcome`: it completes, the file fails to open, or the stream fails part-way)
- the gradient colour (`shade`)
- the online-player lookup (`online`)

Java iteration order of hash sets and maps is an explicit enumeration (`Enumerates(order, s)`) or a `:|` choice. The contracts do not depend on it.

## Model

All source paths are under `src/main/java/dev/zonary123/zutils/`.

| member | source | states |
|---|---|---|
| PositionCodec.Low26 | src/main/java/dev/zonary123/zutils/database/blocks/RegionBlockStorage.java:170 | `(long) v & 0x3FFFFFF` is a 26-bit field value |
| PositionCodec.Low12 | src/main/java/dev/zonary123/zutils/database/blocks/RegionBlockStorage.java:171 | `(long) v & 0xFFF` is a 12-bit field value |
| PositionCodec.PackPattern | src/main/java/dev/zonary123/zutils/database/blocks/RegionBlockStorage.java:169-173 | the packed key's bit pattern fits in 64 bits |
| PositionCodec.Pack | src/main/java/dev/zonary123/zutils/database/blocks/RegionBlockStorage.java:169-173 | the signed long agrees with PackPattern mod 2^64, and it is negative iff bit 25 of x is set (x & 0x3FFFFFF ≥ 2^25) |
| PositionCodec.PackLayout | src/main/java/dev/zonary123/zutils/database/blocks/RegionBlockStorage.java:169-173 | bits 38–63 of pack hold x & 0x3FFFFFF, bits 26–37 hold y & 0xFFF, bits 0–25 hold z & 0x3FFFFFF |
| PositionCodec.PackInjective | src/main/java/dev/zonary123/zutils/database/blocks/RegionBlockStorage.java:169-173 | positions with x, z in [0, 2^26) and y in [0, 2^12) get distinct keys |
| PositionCodec.PackCollision | src/main/java/dev/zonary123/zutils/database/blocks/RegionBlockStorage.java:169-173 | two positions collide iff x and z agree mod 2^26 and y agrees mod 2^12, negatives included |
| PositionCodec.NegativeAliases | src/main/java/dev/zonary123/zutils/database/blocks/RegionBlockStorage.java:169-173 | concrete aliases: x = −1 and x = 2^26 − 1 give the same key, which is negative as a long |
| RegionLedger.RegionData.constructor | src/main/java/dev/zonary123/zutils/database/blocks/RegionBlockStorage.java:180-181 | a new ledger is empty and clean |
| RegionLedger.RegionData.Add | src/main/java/dev/zonary123/zutils/database/blocks/RegionBlockStorage.java:183-185 | the key is inserted; the ledger becomes dirty iff the key was new, and is never cleaned |
| RegionLedger.RegionData.Remove | src/main/java/dev/zonary123/zutils/database/blocks/RegionBlockStorage.java:187-191 | returns true iff the key was present; the key is gone; dirty is set only on removal |
| RegionLedger.RegionData.Contains | src/main/java/dev/zonary123/zutils/database/blocks/RegionBlockStorage.java:193-195 | membership, with set and flag untouched |
| RegionLedger.RegionData.MergeFrom | src/main/java/dev/zonary123/zutils/database/blocks/RegionBlockStorage.java:197-199 | the set becomes the union; dirty is set iff the union added a key, and an existing dirty flag stays |
| RegionLedger.RegionData.IsDirty | src/main/java/dev/zonary123/zutils/database/blocks/RegionBlockStorage.java:201-203 | returns the flag |
| RegionLedger.RegionData.ClearDirty | src/main/java/dev/zonary123/zutils/database/blocks/RegionBlockStorage.java:205-207 | the flag is cleared and nothing else changes |
| RegionFormat.Available | src/main/java/dev/zonary123/zutils/database/blocks/RegionBlockStorage.java:106-109 | the number of whole 8-byte entries after the 4-byte count |
| RegionFormat.EncodeEntries | src/main/java/dev/zonary123/zutils/database/blocks/RegionBlockStorage.java:144-146 | the writeLong loop yields 8 bytes per key |
| RegionFormat.EncodeBody | src/main/java/dev/zonary123/zutils/database/blocks/RegionBlockStorage.java:142-146 | the written body has 4 + 8·n bytes |
| RegionFormat.LoadBody | src/main/java/dev/zonary123/zutils/database/blocks/RegionBlockStorage.java:101-115 | a body shorter than the 4-byte count, or with a count ≤ 0, loads empty and clean; a dirty load means the count promised more entries than the body holds, and at least one key was read |
| RegionFormat.LoadOfEncoding | src/main/java/dev/zonary123/zutils/database/blocks/RegionBlockStorage.java:106-110 | round trip: the body written for an enumeration of a set loads as exactly that set, with dirty false |
| RegionFormat.TruncatedLoad | src/main/java/dev/zonary123/zutils/database/blocks/RegionBlockStorage.java:106-113 | a body cut at byte p loads a subset of the saved set, and is dirty iff p ≥ 12, that is, iff at least one whole entry survived before the EOF |
| RegionFormat.EntriesMonotone | src/main/java/dev/zonary123/zutils/database/blocks/RegionBlockStorage.java:107-109 | reading more entries never loses keys |
| RegionFormat.ReadBody | src/main/java/dev/zonary123/zutils/database/blocks/RegionBlockStorage.java:101-115 | the loadSync read loop leaves a fresh ledger holding LoadBody's keys and dirty flag; a short header stays empty and clean, an EOF mid-stream stays dirty |
| RegionFormat.WriteBody | src/main/java/dev/zonary123/zutils/database/blocks/RegionBlockStorage.java:142-146 | the saveSync write loop emits EncodeBody of some enumeration of the set; for fewer than 2^31 keys it loads back as the set, clean |
| RegionFormat.WriteEntries | src/main/java/dev/zonary123/zutils/database/blocks/RegionBlockStorage.java:143-145 | the for-each loop writes eight bytes per key, once for each key of the set, in some order |
| RegionFormat.WriteSplitStep | src/main/java/dev/zonary123/zutils/database/blocks/RegionBlockStorage.java:143-145 | each step of the loop writes a key not yet written, keeping written and unwritten keys a split of the set |
| RegionBlockStorage.CacheKey | src/main/java/dev/zonary123/zutils/database/blocks/RegionBlockStorage.java:77-79 | the key starts with `world_`; for a world without `_`, splitting on `_` gives back the world and the two printed chunk coordinates |
| RegionBlockStorage.RegionFileName | src/main/java/dev/zonary123/zutils/database/blocks/RegionBlockStorage.java:137 | the name starts with `region_` and ends with `.dat` |
| RegionBlockStorage.RegionFileNameInjective | src/main/java/dev/zonary123/zutils/database/blocks/RegionBlockStorage.java:137 | equal file names iff equal region coordinates |
| RegionBlockStorage.RegionFile | src/main/java/dev/zonary123/zutils/database/blocks/RegionBlockStorage.java:155-163 | loadSync's file lies in the world's directory and is named `region_…` |
| RegionBlockStorage.RegionFileInjective | src/main/java/dev/zonary123/zutils/database/blocks/RegionBlockStorage.java:155-163 | two chunks share a file iff they share world and coordinates |
| RegionBlockStorage.SaveTarget | src/main/java/dev/zonary123/zutils/database/blocks/RegionBlockStorage.java:129-137 | a key without `_` throws ArrayIndexOutOfBoundsException; the only other error is NumberFormatException; a target has a world without `_` and a `region_` name |
| RegionBlockStorage.DiskLoad | src/main/java/dev/zonary123/zutils/database/blocks/RegionBlockStorage.java:97-116 | a missing file loads empty and clean; an existing one loads LoadBody of its bytes; a dirty load is never empty |
| RegionBlockStorage.SaveTargetOfCacheKey | src/main/java/dev/zonary123/zutils/database/blocks/RegionBlockStorage.java:129-137 | splitting the cache key gives back loadSync's file iff the world name has no `_` |
| RegionBlockStorage.SaveTargetOfUnderscoredWorld | src/main/java/dev/zonary123/zutils/database/blocks/RegionBlockStorage.java:129-137 | world `a_b` either throws NumberFormatException (b not a number) or saves chunk (cx, cz) as chunk (b, cx) of world `a` |
| RegionBlockStorage.UnderscoredWorldExamples | src/main/java/dev/zonary123/zutils/database/blocks/RegionBlockStorage.java:129-132 | `my_world` is never saved; `w_7` lands in world `w` |
| RegionBlockStorage.Written | src/main/java/dev/zonary123/zutils/database/blocks/RegionBlockStorage.java:139-147 | once the file is open, a stream that fails after n bytes leaves a prefix of the body; a complete write leaves the body |
| RegionBlockStorage.SaveEffect | src/main/java/dev/zonary123/zutils/database/blocks/RegionBlockStorage.java:125-153 | a save never makes a clean ledger dirty and never removes a file; every file but the key's target keeps its bytes; a file that fails to open (`new FileOutputStream` throwing, as after a failed `mkdirs`) keeps its old bytes and the ledger stays dirty; only a completed write clears the flag |
| RegionBlockStorage.SavedLedgerLoadsBack | src/main/java/dev/zonary123/zutils/database/blocks/RegionBlockStorage.java:125-152 | after a complete save of a dirty ledger, the ledger is clean and its file loads as the same set |
| RegionBlockStorage.FailedSaveKeepsDirty | src/main/java/dev/zonary123/zutils/database/blocks/RegionBlockStorage.java:128-152 | a save that throws keeps dirty set; a key that fails to split or parse, or a file that fails to open, leaves the disk unchanged; a cut-off file loads a subset |
| RegionBlockStorage.SaveThenLoad | src/main/java/dev/zonary123/zutils/database/blocks/RegionBlockStorage.java:97-152 | for a world without `_`, the next load of the chunk reads exactly what a complete save wrote |
| RegionBlockStorage.Storage.constructor | src/main/java/dev/zonary123/zutils/database/blocks/RegionBlockStorage.java:20-32 | empty cache, no queued work, both I/O contexts running |
| RegionBlockStorage.Storage.StopLoadContext | src/main/java/dev/zonary123/zutils/utils/async/AsyncContext.java:196-199 | the load context stops accepting work |
| RegionBlockStorage.Storage.StopSaveContext | src/main/java/dev/zonary123/zutils/utils/async/AsyncContext.java:196-199 | the save context stops accepting work |
| RegionBlockStorage.Storage.LoadSync | src/main/java/dev/zonary123/zutils/database/blocks/RegionBlockStorage.java:97-116 | a fresh ledger with the file's keys and flag; a missing file gives empty and clean |
| RegionBlockStorage.Storage.GetRegion | src/main/java/dev/zonary123/zutils/database/blocks/RegionBlockStorage.java:67-95 | a hit returns the cached instance and changes nothing; a miss caches a fresh ledger and queues one load into that same instance (empty and clean for the caller), or loads inline when the context is stopped |
| RegionBlockStorage.Storage.MarkPlaced | src/main/java/dev/zonary123/zutils/database/blocks/RegionBlockStorage.java:47-49 | Add of the packed position on the chunk's ledger. On a hit the cache and the load queue are unchanged, and the ledger is dirty iff it was or the key is new. On a miss the ledger is fresh, cached under the key alone and holds MissContents plus the key, dirty; one load into it is queued while the I/O context runs, none when it is stopped |
| RegionBlockStorage.Storage.RemovePlaced | src/main/java/dev/zonary123/zutils/database/blocks/RegionBlockStorage.java:51-53 | Remove of the packed position, true iff it was there. On a hit the cache and loads are unchanged, and the ledger is dirty iff it was or the key was removed. On a miss the fresh ledger holds MissContents minus the key and is dirty iff MissContents was non-empty; a load is queued exactly when the context runs |
| RegionBlockStorage.Storage.IsPlaced | src/main/java/dev/zonary123/zutils/database/blocks/RegionBlockStorage.java:55-57 | membership in the ledger. On a hit nothing changes. On a miss the fresh ledger holds MissContents and is dirty iff that is non-empty; with the load still queued the answer is false |
| RegionBlockStorage.Storage.RunNextLoad | src/main/java/dev/zonary123/zutils/database/blocks/RegionBlockStorage.java:89-95 | the oldest load merges the file's current contents into its target ledger (RegionData.mergeFrom) |
| RegionBlockStorage.Storage.SaveSync | src/main/java/dev/zonary123/zutils/database/blocks/RegionBlockStorage.java:125-153 | a clean ledger is not written; otherwise the body goes to SaveTarget(key), unless the file fails to open; dirty stays iff it was dirty and the target, the open or the write failed |
| RegionBlockStorage.Storage.Evict | src/main/java/dev/zonary123/zutils/database/blocks/RegionBlockStorage.java:29-31 | the removal listener: a dirty ledger is saved once (queued, or inline when the context is stopped), a clean one not at all |
| RegionBlockStorage.Storage.RunNextSave | src/main/java/dev/zonary123/zutils/database/blocks/RegionBlockStorage.java:118-123 | the oldest queued save runs saveSync |
| RegionBlockStorage.Storage.Shutdown | src/main/java/dev/zonary123/zutils/database/blocks/RegionBlockStorage.java:59-61 | saveSync on every cached ledger: the cache and every set unchanged; each ledger dirty afterwards iff it was dirty and its target or write failed; on disk, FlushedAll: files no dirty key targets keep their bytes, and a dirty key's sole target holds its body, whole or cut at its failure, or keeps its old bytes when it failed to open |
| RegionBlockStorage.Storage.SaveCached | src/main/java/dev/zonary123/zutils/database/blocks/RegionBlockStorage.java:60 | one saveSync of the shutdown loop: that ledger is settled and FlushedAll grows by its key when it was dirty |
| RegionBlockStorage.FlushNone | src/main/java/dev/zonary123/zutils/database/blocks/RegionBlockStorage.java:59-61 | before anything is flushed the disk is as it was |
| RegionBlockStorage.FlushStep | src/main/java/dev/zonary123/zutils/database/blocks/RegionBlockStorage.java:125-153 | one more dirty ledger saved, to its target or not at all, keeps FlushedAll |
| RegionBlockStorage.FlushedLoadsBack | src/main/java/dev/zonary123/zutils/database/blocks/RegionBlockStorage.java:97-116 | a ledger flushed by a completed write loads back as the same set, clean |
| RegionBlockStorage.FlushedOpenFailsKeeps | src/main/java/dev/zonary123/zutils/database/blocks/RegionBlockStorage.java:139-150 | a target that failed to open loads as it did before the flush |
| RegionBlockStorage.RemovalLostOnOpenFailure | src/main/java/dev/zonary123/zutils/database/blocks/RegionBlockStorage.java:29-31 | a removal is lost when its dirty ledger is evicted with the save context stopped and the file fails to open: the next load of the chunk brings the position back |
| RegionBlockStorage.ReloadFinds | src/main/java/dev/zonary123/zutils/database/blocks/RegionBlockStorage.java:89-95 | after a miss and its load, isPlaced finds every position the chunk's file holds |
| RegionBlockStorage.StaleMergeRace | src/main/java/dev/zonary123/zutils/database/blocks/RegionBlockStorage.java:70-74 | a position on disk with its load still queued is reported absent and cannot be removed, yet contained once the load merges |
| ChunkBlocks.ChunkBlockData.constructor | src/main/java/dev/zonary123/zutils/database/blocks/ChunkBlockData.java:17-22 | a new instance is empty and clean |
| ChunkBlocks.ChunkBlockData.Add | src/main/java/dev/zonary123/zutils/database/blocks/ChunkBlockData.java:29-33 | true iff the key was absent; inserted; dirty set only on insertion |
| ChunkBlocks.ChunkBlockData.Remove | src/main/java/dev/zonary123/zutils/database/blocks/ChunkBlockData.java:40-44 | true iff the key was present; removed; dirty set only then |
| ChunkBlocks.ChunkBlockData.Contains | src/main/java/dev/zonary123/zutils/database/blocks/ChunkBlockData.java:50-52 | membership, no mutation |
| ChunkBlocks.ChunkBlockData.ClearDirty | src/main/java/dev/zonary123/zutils/database/blocks/ChunkBlockData.java:57-59 | only the flag is reset |
| ChunkBlocks.ChunkBlockData.MergeFrom | src/main/java/dev/zonary123/zutils/database/blocks/ChunkBlockData.java:64-68 | null or empty other: no change; otherwise union and dirty set, even when nothing was new |
| ChunkBlocks.MergeOfKnownKeysDirties | src/main/java/dev/zonary123/zutils/database/blocks/ChunkBlockData.java:64-68 | merging keys already present leaves the keys unchanged but the clean instance dirty, unlike RegionData |
| Async.Settle | src/main/java/dev/zonary123/zutils/utils/async/AsyncContext.java:72-79 | a future completes normally with the supplier's value, or exceptionally with its exception |
| Async.RunnableOutcome | src/main/java/dev/zonary123/zutils/utils/async/AsyncContext.java:93-98 | runAsync's supplier returns null, or throws the runnable's exception |
| Async.Future.constructor | src/main/java/dev/zonary123/zutils/utils/async/AsyncContext.java:71 | a new future is pending |
| Async.Future.Complete | src/main/java/dev/zonary123/zutils/utils/async/AsyncContext.java:75-77 | only a pending future is settled; the result says whether this call settled it |
| Async.Logged | src/main/java/dev/zonary123/zutils/utils/async/AsyncContext.java:166-172 | fewer exceptions are printed than runs happened |
| Async.LoggedAreLaterFailures | src/main/java/dev/zonary123/zutils/utils/async/AsyncContext.java:166-172 | every printed exception comes from a run after the first |
| Async.FixedRateTask.constructor | src/main/java/dev/zonary123/zutils/utils/async/AsyncContext.java:150-153 | the latch starts up, with no runs |
| Async.FixedRateTask.Run | src/main/java/dev/zonary123/zutils/utils/async/AsyncContext.java:156-174 | a run drops the latch; runs after the first leave the future as it was |
| Async.KeptAfterShutdown | src/main/java/dev/zonary123/zutils/utils/async/AsyncContext.java:199 | after scheduler shutdown exactly the one-shot timers remain, and the periodic ones are cancelled |
| Async.KeptIdempotent | src/main/java/dev/zonary123/zutils/utils/async/AsyncContext.java:196-199 | a second scheduler shutdown keeps exactly what the first kept |
| Async.KeptAppend | src/main/java/dev/zonary123/zutils/utils/async/AsyncContext.java:199 | what a shutdown keeps of two timer lists is what it keeps of each, in order |
| Async.AsyncContext.constructor | src/main/java/dev/zonary123/zutils/utils/async/AsyncContext.java:47-59 | a new context is running, with threads `<name>-Worker` / `<name>-Scheduler` and no work |
| Async.AsyncContext.Supply | src/main/java/dev/zonary123/zutils/utils/async/AsyncContext.java:70-83 | while the executor accepts, the job is queued and the future pending; otherwise it runs inline and the future is settled before return |
| Async.AsyncContext.RunAsync | src/main/java/dev/zonary123/zutils/utils/async/AsyncContext.java:93-98 | supply of the runnable-wrapping supplier |
| Async.AsyncContext.RunNextJob | src/main/java/dev/zonary123/zutils/utils/async/AsyncContext.java:221 | the executor runs its oldest job in FIFO order, settling that job's future |
| Async.AsyncContext.Schedule | src/main/java/dev/zonary123/zutils/utils/async/AsyncContext.java:111-133 | like supply through the scheduler; in fallback the delay is ignored and the task runs at once |
| Async.AsyncContext.ScheduleAtFixedRate | src/main/java/dev/zonary123/zutils/utils/async/AsyncContext.java:149-188 | the future of the first run; in fallback exactly one inline run; a non-positive period is rejected with IllegalArgumentException |
| Async.AsyncContext.FireTimer | src/main/java/dev/zonary123/zutils/utils/async/AsyncContext.java:126 | a one-shot fires once and is removed; a periodic task runs again and stays |
| Async.AsyncContext.Shutdown | src/main/java/dev/zonary123/zutils/utils/async/AsyncContext.java:196-199 | running is false and neither executor accepts work, so every later call takes the inline path; periodic timers are cancelled |
| Async.RunFixedRate | src/main/java/dev/zonary123/zutils/utils/async/AsyncContext.java:149-175 | over n runs the future holds the first run's result, and the log holds exactly the later runs' exceptions |
| Async.SupplyAfterShutdown | src/main/java/dev/zonary123/zutils/utils/async/AsyncContext.java:216-218 | after shutdown supply settles inline and queues nothing: no task is dropped |
| AsyncRegistry.UtilsAsync.constructor | src/main/java/dev/zonary123/zutils/utils/async/UtilsAsync.java:13-14 | the registry starts empty |
| AsyncRegistry.UtilsAsync.CreateContext | src/main/java/dev/zonary123/zutils/utils/async/UtilsAsync.java:24-26 | the existing context for the id, or a fresh running one built with `threadName` |
| AsyncRegistry.UtilsAsync.GetContext | src/main/java/dev/zonary123/zutils/utils/async/UtilsAsync.java:35-37 | never null; the same instance until shutdownAll; a new entry is built with `modId + "-Worker"`, giving threads `modId-Worker-Worker` |
| AsyncRegistry.UtilsAsync.ShutdownAll | src/main/java/dev/zonary123/zutils/utils/async/UtilsAsync.java:43-46 | the registry is emptied, and every registered context ends not running, accepting no work, with its periodic timers cancelled (its one-shots kept, by KeptAfterShutdown) and its queued jobs unchanged; a context held under two ids ends as one shutdown leaves it |
| AsyncRegistry.UtilsAsync.ShutdownContext | src/main/java/dev/zonary123/zutils/utils/async/UtilsAsync.java:44 | one shutdown in the loop: a context not yet shut down, or already shut down earlier in the loop, ends as one shutdown of its original state leaves it |
| Duration.Multiplier | src/main/java/dev/zonary123/zutils/models/DurationValue.java:100-109 | every unit is worth at least 1 ms (t=50, s=1000, m=60000, h, d, w=7d, y=365d) |
| Duration.UnitAt | src/main/java/dev/zonary123/zutils/models/DurationValue.java:33 | the suffix the alternation matches stays inside the text; no suffix means minutes |
| Duration.MonthsUnreachable | src/main/java/dev/zonary123/zutils/models/DurationValue.java:33 | `mo` never matches: an `m` followed by `o` is a minute suffix |
| Duration.Total | src/main/java/dev/zonary123/zutils/models/DurationValue.java:94-116 | the sum is never negative, and text with no digit from the position on sums to 0 |
| Duration.Number | src/main/java/dev/zonary123/zutils/models/DurationValue.java:96-115 | a digit run contributes at least its own value |
| Duration.Normal | src/main/java/dev/zonary123/zutils/models/DurationValue.java:91 | trim then lower-case never lengthens the text |
| Duration.ParseValue | src/main/java/dev/zonary123/zutils/models/DurationValue.java:90-117 | parse keeps the untrimmed original text |
| Duration.Parse | src/main/java/dev/zonary123/zutils/models/DurationValue.java:90-117 | the matcher loop's result equals ParseValue |
| Duration.SumMatches | src/main/java/dev/zonary123/zutils/models/DurationValue.java:94-115 | the loop sums every match of the normalised text |
| Duration.OfMillis | src/main/java/dev/zonary123/zutils/models/DurationValue.java:63-65 | ofMillis keeps the count |
| Duration.ToMillis | src/main/java/dev/zonary123/zutils/models/DurationValue.java:124-126 | toMillis is the stored count |
| Duration.ToSeconds | src/main/java/dev/zonary123/zutils/models/DurationValue.java:133-135 | whole seconds, truncated toward zero for either sign |
| Duration.ToString | src/main/java/dev/zonary123/zutils/models/DurationValue.java:138-140 | the original text |
| Duration.InstanceIsZero | src/main/java/dev/zonary123/zutils/models/DurationValue.java:24 | the default instance `DurationValue(0, "0ms")` is ofMillis(0), and its text parses back to it |
| Duration.NormalOfPlain | src/main/java/dev/zonary123/zutils/models/DurationValue.java:91 | text without capitals or edge blanks is already normal |
| Duration.ParseOfMillisText | src/main/java/dev/zonary123/zutils/models/DurationValue.java:63-65 | parse(ofMillis(n).toString()) is n for n ≥ 0, and −n for negative n because the sign is skipped |
| Duration.ParseOfBareNumber | src/main/java/dev/zonary123/zutils/models/DurationValue.java:98 | a number with no unit counts as minutes |
| Duration.ParseHoursAndMinutes | src/main/java/dev/zonary123/zutils/models/DurationValue.java:96-116 | `1h 30m` is 5 400 000 ms |
| Duration.ParseNoDigits | src/main/java/dev/zonary123/zutils/models/DurationValue.java:96-116 | `abc` is 0 ms |
| Duration.ParseMonthSuffix | src/main/java/dev/zonary123/zutils/models/DurationValue.java:108 | `2mo` is 2 minutes, not 60 days |
| Duration.Serialize | src/main/java/dev/zonary123/zutils/models/DurationValue.java:154-156 | a JSON string of the original text, or `60m` for null |
| Duration.Deserialize | src/main/java/dev/zonary123/zutils/models/DurationValue.java:173-184 | a number or a string is accepted, and anything else throws JsonParseException; a string is parsed |
| Duration.DeserializeNumber | src/main/java/dev/zonary123/zutils/models/DurationValue.java:177-178 | a JSON number n is n minutes |
| Duration.SerializeRoundTrip | src/main/java/dev/zonary123/zutils/models/DurationValue.java:154-184 | deserialize(serialize(parse(s))) = parse(s) |
| Duration.SerializeOfMillis | src/main/java/dev/zonary123/zutils/models/DurationValue.java:63-65 | ofMillis(n) survives serialisation for n ≥ 0 |
| Duration.SerializeNone | src/main/java/dev/zonary123/zutils/models/DurationValue.java:155 | null serialises as one hour |
| Cooldowns.MinimumUnique | src/main/java/dev/zonary123/zutils/utils/PlayerUtils.java:29-50 | the permitted minimum is unique, so both overloads compute the same number |
| Cooldowns.Holds | src/main/java/dev/zonary123/zutils/utils/PlayerUtils.java:33 | a null player holds no permission |
| Cooldowns.GetCooldown | src/main/java/dev/zonary123/zutils/utils/PlayerUtils.java:29-38 | the minimum of the default and of every value whose key the player holds; the default for a null player |
| Cooldowns.MillisOf | src/main/java/dev/zonary123/zutils/utils/PlayerUtils.java:41-46 | each cooldown as its milliseconds, same keys |
| Cooldowns.GetCooldownMillis | src/main/java/dev/zonary123/zutils/utils/PlayerUtils.java:40-50 | the same permitted minimum in milliseconds, despite skipping larger entries before the permission check |
| Cooldowns.Decompose | src/main/java/dev/zonary123/zutils/utils/PlayerUtils.java:75-78 | hours < 24, minutes < 60 and seconds < 60 |
| Cooldowns.DecomposeRecombines | src/main/java/dev/zonary123/zutils/utils/PlayerUtils.java:75-78 | 86400·days + 3600·hours + 60·minutes + seconds = t |
| Cooldowns.Component | src/main/java/dev/zonary123/zutils/utils/PlayerUtils.java:81-92 | a zero component contributes nothing |
| Cooldowns.AppendComponent | src/main/java/dev/zonary123/zutils/utils/PlayerUtils.java:81-83 | one conditional append to the builder |
| Cooldowns.FormatCooldown | src/main/java/dev/zonary123/zutils/utils/PlayerUtils.java:69-96 | getCooldown(long) yields CooldownText of the time left: no-cooldown text when none is left or every component is zero, otherwise the trimmed components in day, hour, minute, second order |
| Cooldowns.CooldownText | src/main/java/dev/zonary123/zutils/utils/PlayerUtils.java:70-94 | under one second left gives the no-cooldown text, whatever the templates |
| Cooldowns.ComponentShown | src/main/java/dev/zonary123/zutils/utils/PlayerUtils.java:81-92 | with `%s` templates a component prints its number exactly when it is non-zero |
| Cooldowns.FormatCooldownOfDate | src/main/java/dev/zonary123/zutils/utils/PlayerUtils.java:53-56 | null date gives no cooldown; otherwise the long overload |
| Cooldowns.IsCooldownAt | src/main/java/dev/zonary123/zutils/utils/PlayerUtils.java:104-107 | true iff a date is given and now is before it |
| Cooldowns.IsCooldown | src/main/java/dev/zonary123/zutils/utils/PlayerUtils.java:115-118 | the same for a Long timestamp |
| Cooldowns.ExecuteAs | src/main/java/dev/zonary123/zutils/utils/PlayerUtils.java:138-152 | a null player throws NullPointerException; otherwise the command goes to the executor's sender, unchanged when it holds no `%player%` |
| Cooldowns.ExecuteCommandAsConsole | src/main/java/dev/zonary123/zutils/utils/PlayerUtils.java:138-141 | dispatched by the console |
| Cooldowns.ExecuteCommandAsPlayer | src/main/java/dev/zonary123/zutils/utils/PlayerUtils.java:149-152 | dispatched by the player |
| Cooldowns.ExecuteCommand | src/main/java/dev/zonary123/zutils/utils/PlayerUtils.java:126-130 | a null player throws NullPointerException, whatever the prefix; a dispatch by the player happens only for a `player:` command |
| Cooldowns.ConsolePrefixRoutes | src/main/java/dev/zonary123/zutils/utils/PlayerUtils.java:127 | `console:` is stripped and the rest runs as the console |
| Cooldowns.PlayerPrefixRoutes | src/main/java/dev/zonary123/zutils/utils/PlayerUtils.java:128 | `player:` is stripped and the rest runs as the player |
| Cooldowns.UnprefixedRoutes | src/main/java/dev/zonary123/zutils/utils/PlayerUtils.java:129 | anything else runs as the console, unchanged except for the placeholder |
| Cooldowns.CommandWithoutPlaceholder | src/main/java/dev/zonary123/zutils/utils/PlayerUtils.java:129 | a command without `%player%` reaches the manager verbatim |
| ValidatorUtil.PatternOf | src/main/java/dev/zonary123/zutils/models/validators/ValidatorUtil.java:37 | the pattern is exactly what follows `regex:` |
| ValidatorUtil.RegexScan | src/main/java/dev/zonary123/zutils/models/validators/ValidatorUtil.java:35-44 | the only exception the scan can raise is PatternSyntaxException |
| ValidatorUtil.MatchValue | src/main/java/dev/zonary123/zutils/models/validators/ValidatorUtil.java:21-52 | a direct match (empty set, `*`, the value) is true; the only error is PatternSyntaxException; a true result is a direct match or names a regex entry that fully matches |
| ValidatorUtil.Match | src/main/java/dev/zonary123/zutils/models/validators/ValidatorUtil.java:21-52 | the loop with its break computes: true on an empty set, `*` or the value itself, else the first regex entry that fully matches decides |
| ValidatorUtil.RegexScanSound | src/main/java/dev/zonary123/zutils/models/validators/ValidatorUtil.java:35-44 | a true scan names a regex entry whose pattern fully matches the value |
| ValidatorUtil.RegexScanComplete | src/main/java/dev/zonary123/zutils/models/validators/ValidatorUtil.java:35-44 | when every pattern compiles, the scan is true iff some regex entry matches, whatever the order |
| ValidatorUtil.PlainEntriesNeverMatch | src/main/java/dev/zonary123/zutils/models/validators/ValidatorUtil.java:36 | entries without the prefix never match through the loop, metacharacters or not |
| ValidatorUtil.MatchWithoutRegex | src/main/java/dev/zonary123/zutils/models/validators/ValidatorUtil.java:24 | without regex entries, match is exactly the direct test |
| ValidatorUtil.RegexEntryAdmits | src/main/java/dev/zonary123/zutils/models/validators/ValidatorUtil.java:36-41 | a compiling, fully matching `regex:` entry admits a value the set does not name |
| EntityValidation.EntityValidator.IsValidId | src/main/java/dev/zonary123/zutils/models/validators/EntityValidator.java:25-28 | a null id is invalid |
| EntityValidation.EntityValidator.IsValidStack | src/main/java/dev/zonary123/zutils/models/validators/EntityValidator.java:30-33 | a null stack is invalid |
| EntityValidation.EntityValidator.IsValidBlock | src/main/java/dev/zonary123/zutils/models/validators/EntityValidator.java:35-40 | a null block or item is invalid |
| EntityValidation.IdRule | src/main/java/dev/zonary123/zutils/models/validators/EntityValidator.java:27 | a present id is valid iff the set is empty, names it, or holds `*` |
| EntityValidation.DefaultAcceptsAll | src/main/java/dev/zonary123/zutils/models/validators/EntityValidator.java:21-23 | `{"*"}` accepts every id and stack, and every block with an item |
| EntityValidation.NoRegexSupport | src/main/java/dev/zonary123/zutils/models/validators/EntityValidator.java:27 | a `regex:` entry admits only its own literal text |
| EntityValidation.OverloadsDelegate | src/main/java/dev/zonary123/zutils/models/validators/EntityValidator.java:30-40 | the stack and block overloads check the item id |
| BlockValidation.BlockValidator.IsValidId | src/main/java/dev/zonary123/zutils/models/validators/BlockValidator.java:24-27 | null is invalid; the empty id is always valid |
| BlockValidation.BlockValidator.IsValidStack | src/main/java/dev/zonary123/zutils/models/validators/BlockValidator.java:29-32 | a null stack or one without a block key is invalid |
| BlockValidation.BlockValidator.IsValidBlock | src/main/java/dev/zonary123/zutils/models/validators/BlockValidator.java:34-37 | a null block is invalid |
| BlockValidation.IdRule | src/main/java/dev/zonary123/zutils/models/validators/BlockValidator.java:26 | a non-empty id is valid iff the set names it or holds `*` |
| BlockValidation.EmptySetContrast | src/main/java/dev/zonary123/zutils/models/validators/BlockValidator.java:26 | an empty set admits only the empty id, where an empty entity set admits all |
| BlockValidation.DefaultAcceptsAll | src/main/java/dev/zonary123/zutils/models/validators/BlockValidator.java:20-22 | `{"*"}` accepts every id and block, and every stack with a block key |
| BlockValidation.StackUsesBlockKey | src/main/java/dev/zonary123/zutils/models/validators/BlockValidator.java:29-37 | the stack overload checks the block key |
| ItemStackValidation.ItemStackValidator.IsValidId | src/main/java/dev/zonary123/zutils/models/validators/ItemStackValidator.java:35-37 | match of the id against the set; only PatternSyntaxException propagates |
| ItemStackValidation.ItemStackValidator.IsValidBlock | src/main/java/dev/zonary123/zutils/models/validators/ItemStackValidator.java:81-85 | no item: false; otherwise the item id check |
| ItemStackValidation.ItemStackValidator.CategoryScan | src/main/java/dev/zonary123/zutils/models/validators/ItemStackValidator.java:58-60 | the category scan raises at most PatternSyntaxException |
| ItemStackValidation.IsValidIdOf | src/main/java/dev/zonary123/zutils/models/validators/ItemStackValidator.java:35-37 | through the Match loop, equal to IsValidId |
| ItemStackValidation.IsValidStack | src/main/java/dev/zonary123/zutils/models/validators/ItemStackValidator.java:46-72 | the category loop with early return and catch-all computes StackValid |
| ItemStackValidation.IsValidBlockOf | src/main/java/dev/zonary123/zutils/models/validators/ItemStackValidator.java:81-85 | through the Match loop, equal to IsValidBlock |
| ItemStackValidation.FirstMatchingCategory | src/main/java/dev/zonary123/zutils/models/validators/ItemStackValidator.java:58-60 | the first matching category, in order, makes the scan true |
| ItemStackValidation.NoMatchingCategory | src/main/java/dev/zonary123/zutils/models/validators/ItemStackValidator.java:58-60 | with no match the scan is false |
| ItemStackValidation.CategoryScanSound | src/main/java/dev/zonary123/zutils/models/validators/ItemStackValidator.java:58-60 | a true scan names a matching category |
| ItemStackValidation.FallsBackToItemId | src/main/java/dev/zonary123/zutils/models/validators/ItemStackValidator.java:49-62 | with null or non-matching categories, the stack is valid iff its item id is |
| ItemStackValidation.ExceptionsGiveFalse | src/main/java/dev/zonary123/zutils/models/validators/ItemStackValidator.java:63-71 | a missing item or a bad pattern gives false and never propagates |
| ItemStackValidation.StackValidSound | src/main/java/dev/zonary123/zutils/models/validators/ItemStackValidator.java:46-72 | a valid stack has an item and a matching category or item id |
| ItemStackValidation.DefaultAcceptsAll | src/main/java/dev/zonary123/zutils/models/validators/ItemStackValidator.java:23-25 | `{"*"}` accepts every id and every stack that has an item |
| LegacyFormat.Format.ApplyLegacy | src/main/java/dev/zonary123/zutils/utils/FormatMessage.java:117-126 | `r` (either case) and only `r` resets; any other code keeps the gradient and never clears a flag; the colour changes only to the code's colour or by reset |
| LegacyFormat.ColorFromCode | src/main/java/dev/zonary123/zutils/utils/FormatMessage.java:144-164 | always a 7-character `#RRGGBB` text |
| LegacyFormat.ApplyState | src/main/java/dev/zonary123/zutils/utils/FormatMessage.java:106-111 | colour only when the state has one; bold and italic always; nothing else changes |
| LegacyFormat.GradientNodes | src/main/java/dev/zonary123/zutils/utils/FormatMessage.java:94-103 | one node per UTF-16 code unit of the segment, as the loop up to `text.length()` with `charAt(i)` |
| LegacyFormat.TextNodes | src/main/java/dev/zonary123/zutils/utils/FormatMessage.java:86-104 | no node iff the text is empty; one node without a gradient, one per UTF-16 code unit with one |
| LegacyFormat.Step | src/main/java/dev/zonary123/zutils/utils/FormatMessage.java:47-73 | one token never empties the stack |
| LegacyFormat.Run | src/main/java/dev/zonary123/zutils/utils/FormatMessage.java:37-80 | the stack never empties |
| LegacyFormat.FormatState.constructor | src/main/java/dev/zonary123/zutils/utils/FormatMessage.java:170-173 | a new state has no colour, flag or gradient |
| LegacyFormat.FormatState.HasGradient | src/main/java/dev/zonary123/zutils/utils/FormatMessage.java:175-177 | both endpoints are set |
| LegacyFormat.FormatState.Reset | src/main/java/dev/zonary123/zutils/utils/FormatMessage.java:179-183 | colour, all four flags and both endpoints cleared |
| LegacyFormat.ApplyLegacy | src/main/java/dev/zonary123/zutils/utils/FormatMessage.java:117-126 | the state object changes as Format.ApplyLegacy says |
| LegacyFormat.AppendText | src/main/java/dev/zonary123/zutils/utils/FormatMessage.java:86-104 | appends exactly TextNodes: none for empty text, one raw node without a gradient, one per UTF-16 code unit with one |
| LegacyFormat.StepToken | src/main/java/dev/zonary123/zutils/utils/FormatMessage.java:49-72 | the loop body for one token implements Step |
| LegacyFormat.ParseLegacy | src/main/java/dev/zonary123/zutils/utils/FormatMessage.java:37-80 | the loop yields Run's arena, whose node 0 is the root |
| LegacyFormat.TextNodesUnder | src/main/java/dev/zonary123/zutils/utils/FormatMessage.java:86-104 | every appended node hangs under the current top |
| LegacyFormat.StepWellFormed | src/main/java/dev/zonary123/zutils/utils/FormatMessage.java:47-73 | a step keeps the arena a tree rooted at node 0 and the stack a path from the root, and only appends nodes |
| LegacyFormat.RunWellFormed | src/main/java/dev/zonary123/zutils/utils/FormatMessage.java:38-79 | the stack never empties and the result is the root pushed first |
| LegacyFormat.RunExtends | src/main/java/dev/zonary123/zutils/utils/FormatMessage.java:47-73 | nodes are never removed |
| LegacyFormat.ColorTable | src/main/java/dev/zonary123/zutils/utils/FormatMessage.java:144-164 | 0–9 and a–f, in either case, give the sixteen listed colours |
| LegacyFormat.ColorDefault | src/main/java/dev/zonary123/zutils/utils/FormatMessage.java:162 | any other character gives `#FFFFFF` |
| LegacyFormat.LegacyCodes | src/main/java/dev/zonary123/zutils/utils/FormatMessage.java:117-126 | l/o/n/k set bold/italic/underline/obfuscated; r resets; `m` sets white |
| LegacyFormat.ColorCodeKeepsFlags | src/main/java/dev/zonary123/zutils/utils/FormatMessage.java:124 | a colour code changes only the colour |
| LegacyFormat.ApplyStateIgnoresUnderline | src/main/java/dev/zonary123/zutils/utils/FormatMessage.java:106-111 | underline and obfuscated never reach a node |
| LegacyFormat.HexOpenPushes | src/main/java/dev/zonary123/zutils/utils/FormatMessage.java:53-57 | `<#RRGGBB>` inserts a coloured node under the top, pushes it and sets the state colour |
| LegacyFormat.HexCloseKeepsColor | src/main/java/dev/zonary123/zutils/utils/FormatMessage.java:58-59 | `</#>` pops but the colour stays |
| LegacyFormat.HexCloseAtRoot | src/main/java/dev/zonary123/zutils/utils/FormatMessage.java:59 | `</#>` at the root changes nothing |
| LegacyFormat.PlainText | src/main/java/dev/zonary123/zutils/utils/FormatMessage.java:86-91 | empty text adds nothing; other text adds one styled raw node under the top |
| LegacyFormat.GradientText | src/main/java/dev/zonary123/zutils/utils/FormatMessage.java:94-103 | node j holds code unit j alone, shaded at step j of `text.length()`, where a state colour overrides the interpolated one |
| LegacyFormat.Utf16Char | src/main/java/dev/zonary123/zutils/utils/FormatMessage.java:94-99 | a character below U+10000 is one code unit; any other is a high then a low surrogate that together encode it |
| LegacyFormat.Utf16 | src/main/java/dev/zonary123/zutils/utils/FormatMessage.java:94-99 | a String is at least as many code units as characters |
| LegacyFormat.Utf16OfBasic | src/main/java/dev/zonary123/zutils/utils/FormatMessage.java:94-99 | text without supplementary characters has one code unit per character, each equal to it |
| LegacyFormat.GradientSplitsSurrogates | src/main/java/dev/zonary123/zutils/utils/FormatMessage.java:94-103 | under a gradient, a character beyond U+FFFF becomes two lone-surrogate nodes shaded at steps 0 and 1 of 2 |
| LegacyFormat.GradientTags | src/main/java/dev/zonary123/zutils/utils/FormatMessage.java:60-65 | the open tag sets both endpoints; the close tag clears both and nothing else |
| LegacyFormat.LangInserts | src/main/java/dev/zonary123/zutils/utils/FormatMessage.java:66-67 | `<lang:key>` inserts a translation node under the top and pushes nothing |
| Rewards.Field | src/main/java/dev/zonary123/zutils/models/rewards/Reward.java:78 | an array index: the field, or ArrayIndexOutOfBoundsException |
| Rewards.ParseIntOr | src/main/java/dev/zonary123/zutils/models/rewards/Reward.java:87 | Integer.parseInt, or NumberFormatException |
| Rewards.NextInt | src/main/java/dev/zonary123/zutils/models/rewards/Reward.java:85 | a value in [origin, bound), or IllegalArgumentException when origin ≥ bound |
| Rewards.RangeAmountOf | src/main/java/dev/zonary123/zutils/models/rewards/Reward.java:82-85 | no fields throws ArrayIndexOutOfBoundsException; an amount lies between the parsed min and max; the errors are index, number format and an empty nextInt range |
| Rewards.ItemAmount | src/main/java/dev/zonary123/zutils/models/rewards/Reward.java:80-88 | without `-` the amount exists iff the text is an int; an item amount is never negative; the same three errors only |
| Rewards.MoneyAmountOf | src/main/java/dev/zonary123/zutils/models/rewards/Reward.java:137-145 | without `-` the text is the amount as written; a range's ends hold no `-`; the only error is ArrayIndexOutOfBoundsException |
| Rewards.Reward.Type | src/main/java/dev/zonary123/zutils/models/rewards/Reward.java:44-46 | the type holds no `:` |
| Rewards.Reward.GiveReward | src/main/java/dev/zonary123/zutils/models/rewards/Reward.java:58-65 | success only for types item, money and command, with at most one effect; an unreadable type throws its error |
| Rewards.Reward.ItemReward | src/main/java/dev/zonary123/zutils/models/rewards/Reward.java:76-103 | online: exactly one give of a non-negative amount to the player; offline: only through the money fallback, so the type must be money |
| Rewards.Reward.CommandReward | src/main/java/dev/zonary123/zutils/models/rewards/Reward.java:113-118 | succeeds iff the reward has a `:`, with exactly one console command; otherwise ArrayIndexOutOfBoundsException |
| Rewards.Reward.MoneyReward | src/main/java/dev/zonary123/zutils/models/rewards/Reward.java:131-150 | in the model the only error is ArrayIndexOutOfBoundsException; a success read four fields and deposits once iff the economy is registered, through that economy with the given currency, to the player |
| Rewards.Reward.GiveDisconnectedReward | src/main/java/dev/zonary123/zutils/models/rewards/Reward.java:157-164 | success only for money rewards, with deposits only; any other readable type throws UnsupportedOperationException with the fixed message |
| Rewards.TypeBeforeColon | src/main/java/dev/zonary123/zutils/models/rewards/Reward.java:44-46 | the type is the text before the first `:` |
| Rewards.TypeWithoutColon | src/main/java/dev/zonary123/zutils/models/rewards/Reward.java:44-46 | without `:` the type is the whole string |
| Rewards.TypeOfColons | src/main/java/dev/zonary123/zutils/models/rewards/Reward.java:45 | `::` splits into nothing, so getting the type throws |
| Rewards.UnsupportedTypes | src/main/java/dev/zonary123/zutils/models/rewards/Reward.java:58-65 | unknown types throw UnsupportedOperationException; the offline variant accepts only money and agrees with giveReward there |
| Rewards.ExactAmount | src/main/java/dev/zonary123/zutils/models/rewards/Reward.java:87 | a plain number is the amount |
| Rewards.RangeAmount | src/main/java/dev/zonary123/zutils/models/rewards/Reward.java:81-85 | `min-max` gives an amount in [min, max] |
| Rewards.RangeToMaxOverflows | src/main/java/dev/zonary123/zutils/models/rewards/Reward.java:85 | a maximum of 2147483647 wraps `max + 1` and nextInt throws |
| Rewards.NegativeAmountFails | src/main/java/dev/zonary123/zutils/models/rewards/Reward.java:81-83 | a negative amount reads as a range with an empty minimum and throws NumberFormatException |
| Rewards.ItemGrammar | src/main/java/dev/zonary123/zutils/models/rewards/Reward.java:76-95 | `item:<n>:<id>` gives n of the item to an online player |
| Rewards.OfflineItemFails | src/main/java/dev/zonary123/zutils/models/rewards/Reward.java:90-93 | without a Player entity the fallback refuses item rewards |
| Rewards.ItemWithoutAmountFails | src/main/java/dev/zonary123/zutils/models/rewards/Reward.java:79 | `item:<id>` throws ArrayIndexOutOfBoundsException |
| Rewards.CommandGrammar | src/main/java/dev/zonary123/zutils/models/rewards/Reward.java:113-118 | everything after the first `:`, later colons kept, `%player%` replaced, run by the console |
| Rewards.MoneyGrammar | src/main/java/dev/zonary123/zutils/models/rewards/Reward.java:131-150 | economy, currency and amount fields; reason `Reward`; an unknown economy deposits nothing and does not throw |
| Rewards.MoneyWithReason | src/main/java/dev/zonary123/zutils/models/rewards/Reward.java:136 | a fifth field is the reason |
| Rewards.MoneyDropsSixthField | src/main/java/dev/zonary123/zutils/models/rewards/Reward.java:136 | text after a fifth colon is dropped |
| Rewards.MoneyTrailingColon | src/main/java/dev/zonary123/zutils/models/rewards/Reward.java:132-136 | a trailing `:` still gives reason `Reward` |
| Rewards.MoneyRange | src/main/java/dev/zonary123/zutils/models/rewards/Reward.java:138-141 | a money range keeps both ends |
| Rewards.DefaultRewardGivesDirt | src/main/java/dev/zonary123/zutils/models/rewards/Reward.java:28-31 | the no-argument reward gives one Soil_Dirt |
| RewardBundles.Record | src/main/java/dev/zonary123/zutils/models/rewards/AdvancedRewards.java:76 | each call is recorded once; the run stops iff the call threw |
| RewardBundles.NonNull | src/main/java/dev/zonary123/zutils/models/rewards/AdvancedRewards.java:75 | the non-null rewards: exactly the rewards of Some entries, as long as the list iff no entry is null |
| RewardBundles.Positive | src/main/java/dev/zonary123/zutils/models/rewards/AdvancedRewards.java:84-85 | the draw pool: exactly the non-null rewards of positive weight |
| RewardBundles.NonPositive | src/main/java/dev/zonary123/zutils/models/rewards/AdvancedRewards.java:86-87 | exactly the non-null rewards of weight ≤ 0 |
| RewardBundles.PositiveSplitsNonNull | src/main/java/dev/zonary123/zutils/models/rewards/AdvancedRewards.java:82-89 | the pool and the directly given rewards partition the non-null rewards as multisets |
| RewardBundles.AmountOver | src/main/java/dev/zonary123/zutils/models/rewards/AdvancedRewards.java:137-148 | at least 1, and at least every eligible key's value |
| RewardBundles.AmountOverIsBest | src/main/java/dev/zonary123/zutils/models/rewards/AdvancedRewards.java:137-148 | the amount is max(1, values of the empty or held keys) |
| RewardBundles.BestAmountUnique | src/main/java/dev/zonary123/zutils/models/rewards/AdvancedRewards.java:137-148 | that maximum is unique, so the entry order is irrelevant |
| RewardBundles.GetAmountForPlayer | src/main/java/dev/zonary123/zutils/models/rewards/AdvancedRewards.java:137-148 | the loop computes the best amount |
| RewardBundles.DefaultAmount | src/main/java/dev/zonary123/zutils/models/rewards/AdvancedRewards.java:35-38 | with the default map, 2 for `group.vip` holders and 1 otherwise |
| RewardBundles.GiveAllFrom | src/main/java/dev/zonary123/zutils/models/rewards/AdvancedRewards.java:73-78 | a run already stopped by an exception stays as it is |
| RewardBundles.GiveAllRewards | src/main/java/dev/zonary123/zutils/models/rewards/AdvancedRewards.java:73-78 | the loop equals GiveAllFrom |
| RewardBundles.GiveAllGiven | src/main/java/dev/zonary123/zutils/models/rewards/AdvancedRewards.java:73-78 | every non-null reward is given once in list order; a run cut short by an exception gave a prefix |
| RewardBundles.PartitionFrom | src/main/java/dev/zonary123/zutils/models/rewards/AdvancedRewards.java:81-89 | the trace and the pool only grow; a run already stopped stays as it is |
| RewardBundles.Drawn | src/main/java/dev/zonary123/zutils/models/rewards/AdvancedRewards.java:91-96 | exactly `amount` draws, each a pool member |
| RewardBundles.DrawnPicks | src/main/java/dev/zonary123/zutils/models/rewards/AdvancedRewards.java:91-92 | draw j is the pool entry that pick i + j selects |
| RewardBundles.DrawFrom | src/main/java/dev/zonary123/zutils/models/rewards/AdvancedRewards.java:91-96 | a run already stopped stays as it is |
| RewardBundles.DrawExtends | src/main/java/dev/zonary123/zutils/models/rewards/AdvancedRewards.java:91-96 | draws only append to the rewards given and the effects |
| RewardBundles.Weighted | src/main/java/dev/zonary123/zutils/models/rewards/AdvancedRewards.java:80-97 | the first loop's gifts come first; with no positive weight and a positive amount the run ends in an exception |
| RewardBundles.GiveWeightedRewards | src/main/java/dev/zonary123/zutils/models/rewards/AdvancedRewards.java:80-97 | the two loops equal Weighted |
| RewardBundles.PartitionPool | src/main/java/dev/zonary123/zutils/models/rewards/AdvancedRewards.java:81-89 | the pool is the positive rewards in list order |
| RewardBundles.PartitionGiven | src/main/java/dev/zonary123/zutils/models/rewards/AdvancedRewards.java:81-89 | non-positive rewards are given once each, in order, while partitioning |
| RewardBundles.DrawGiven | src/main/java/dev/zonary123/zutils/models/rewards/AdvancedRewards.java:91-96 | the draws give exactly the drawn rewards, one per draw |
| RewardBundles.WeightedGiven | src/main/java/dev/zonary123/zutils/models/rewards/AdvancedRewards.java:80-97 | a successful weighted run gives the non-positive rewards and then `amount` drawn positive ones |
| RewardBundles.EmptyPoolThrows | src/main/java/dev/zonary123/zutils/models/rewards/AdvancedRewards.java:90-92 | with no positive weight, the first draw throws IllegalArgumentException |
| RewardBundles.DisconnectedFrom | src/main/java/dev/zonary123/zutils/models/rewards/AdvancedRewards.java:154-158 | the trace only grows; a run already stopped stays as it is; a null entry always ends the run in an exception, and a run that ends well met none |
| RewardBundles.GiveDisconnectedRewards | src/main/java/dev/zonary123/zutils/models/rewards/AdvancedRewards.java:154-158 | the loop equals DisconnectedFrom |
| RewardBundles.DisconnectedOnlyMoney | src/main/java/dev/zonary123/zutils/models/rewards/AdvancedRewards.java:154-158 | a successful offline run met only money rewards and no null, each given once in order |
| RewardBundles.GiveRewards | src/main/java/dev/zonary123/zutils/models/rewards/AdvancedRewards.java:50-67 | offline: the disconnected rewards; online: all rewards, or weighted draws with the player's amount |
| RewardBundles.DefaultItemAsWrittenFails | src/main/java/dev/zonary123/zutils/models/rewards/AdvancedRewards.java:41 | the default `item:Soil_Dirt` throws for every player |
| RewardBundles.DefaultItemGives | src/main/java/dev/zonary123/zutils/models/rewards/AdvancedRewards.java:41 | the corrected default `item:1:Soil_Dirt` gives one Soil_Dirt |
| RewardBundles.DefaultsPooled | src/main/java/dev/zonary123/zutils/models/rewards/AdvancedRewards.java:40-44 | every default reward has weight 1.0, so the first loop gives nothing and pools all three in order |
| RewardBundles.DefaultBundleFails | src/main/java/dev/zonary123/zutils/models/rewards/AdvancedRewards.java:29-44 | a new AdvancedRewards, as written: whenever the first draw picks the item, the run stops with ArrayIndexOutOfBoundsException after that one call |
| RewardBundles.DefaultCorrectedGivesDirt | src/main/java/dev/zonary123/zutils/models/rewards/AdvancedRewards.java:40-44 | with the corrected item, one draw of it gives an online player one Soil_Dirt and no exception |
| Events.RemoveFirst | src/main/java/dev/zonary123/zutils/events/EventChannel.java:19 | List.remove: unchanged when absent, otherwise one occurrence fewer |
| Events.RemoveFirstAt | src/main/java/dev/zonary123/zutils/events/EventChannel.java:19 | it is the first occurrence that goes |
| Events.EventChannel.constructor | src/main/java/dev/zonary123/zutils/events/EventChannel.java:12 | no listeners |
| Events.EventChannel.Subscribe | src/main/java/dev/zonary123/zutils/events/EventChannel.java:14-16 | appended at the end, duplicates kept |
| Events.EventChannel.Unsubscribe | src/main/java/dev/zonary123/zutils/events/EventChannel.java:18-20 | the first equal listener is removed |
| Events.EventChannel.IsEmpty | src/main/java/dev/zonary123/zutils/events/EventChannel.java:29-31 | true iff no listeners |
| Events.EventChannel.Emit | src/main/java/dev/zonary123/zutils/events/EventChannel.java:22-27 | each listener once, in order, with the same payload, stopping after one that throws; the list is not changed |
| Events.SubscribeUnsubscribe | src/main/java/dev/zonary123/zutils/events/EventChannel.java:14-20 | subscribe then unsubscribe of a new listener restores the list |
| Events.UnsubscribeDuplicate | src/main/java/dev/zonary123/zutils/events/EventChannel.java:18-20 | with a duplicate, one unsubscribe leaves one copy |
| EconomyRegistry.Resolve | src/main/java/dev/zonary123/zutils/api/EconomyApi.java:309-313 | the registered economy, otherwise IllegalArgumentException `Economy not found: <id>` |
| EconomyRegistry.EconomyApi.constructor | src/main/java/dev/zonary123/zutils/api/EconomyApi.java:36-40 | exactly one economy, under `ZEconomy` |
| EconomyRegistry.EconomyApi.RegisterEconomy | src/main/java/dev/zonary123/zutils/api/EconomyApi.java:57-63 | adds under a new id; a taken id throws IllegalStateException and keeps the old entry |
| EconomyRegistry.EconomyApi.GetEconomy | src/main/java/dev/zonary123/zutils/api/EconomyApi.java:73-75 | the registered economy or null, no side effect |
| EconomyRegistry.EconomyApi.GetBalanceBy | src/main/java/dev/zonary123/zutils/api/EconomyApi.java:112-117 | forwards to the resolved provider with the selector's currency; throws iff unregistered |
| EconomyRegistry.EconomyApi.GetBalance | src/main/java/dev/zonary123/zutils/api/EconomyApi.java:93-99 | the selector overload with `EconomySelector(economyId, currencyId)` |
| EconomyRegistry.EconomyApi.SetBalanceBy | src/main/java/dev/zonary123/zutils/api/EconomyApi.java:154-162 | forwards amount and reason unchanged; throws iff unregistered |
| EconomyRegistry.EconomyApi.SetBalance | src/main/java/dev/zonary123/zutils/api/EconomyApi.java:134-142 | the selector overload |
| EconomyRegistry.EconomyApi.DepositBy | src/main/java/dev/zonary123/zutils/api/EconomyApi.java:199-207 | forwards amount and reason unchanged; throws iff unregistered |
| EconomyRegistry.EconomyApi.Deposit | src/main/java/dev/zonary123/zutils/api/EconomyApi.java:179-187 | the selector overload |
| EconomyRegistry.EconomyApi.WithdrawBy | src/main/java/dev/zonary123/zutils/api/EconomyApi.java:244-252 | forwards amount and reason unchanged; throws iff unregistered |
| EconomyRegistry.EconomyApi.Withdraw | src/main/java/dev/zonary123/zutils/api/EconomyApi.java:224-232 | the selector overload |
| EconomyRegistry.EconomyApi.HasBalanceBy | src/main/java/dev/zonary123/zutils/api/EconomyApi.java:286-293 | forwards the amount unchanged; throws iff unregistered |
| EconomyRegistry.EconomyApi.HasBalance | src/main/java/dev/zonary123/zutils/api/EconomyApi.java:268-275 | the selector overload |
| EconomyRegistry.UnregisteredNeverCalls | src/main/java/dev/zonary123/zutils/api/EconomyApi.java:309-312 | every balance operation on an unregistered economy throws the same error whatever the providers do, so none is called |
| EconomyRegistry.RegisterTwice | src/main/java/dev/zonary123/zutils/api/EconomyApi.java:57-63 | registering a new id succeeds, the second registration of it throws IllegalStateException, and the first entry stays |
| EconomyRegistry.DefaultSelectorResolves | src/main/java/dev/zonary123/zutils/models/EconomySelector.java:21-24 | on a new registry the default selector (`ZEconomy`, `coins`) resolves to the built-in provider's `coins` balance |

## Left out

- Disk and compression. gzip wrapping, `mkdirs` and file streams are I/O. The disk is a map from (world, file name) to the uncompressed body, and how a save's write ends is the `WriteOutcome` parameter.
- Caffeine policy. The 5-minute expiry and 10 000-entry bound of the region cache are not modelled; eviction is an explicit `Evict` call. The pattern cache of `ValidatorUtil` does not change results and is left out.
- Cooldowns.FormatCooldown: the cooldown-text cache of `PlayerUtils` (PlayerUtils.java:58-61, 74) is not modelled. It is keyed by the seconds count alone and reads the Lang inside its loader, so after a language reload the source can return text built from the old Lang for the same seconds value, for up to 5 minutes after that value was last read. The model always builds the text from its `lang` parameter.
- RegionBlockStorage.Storage.StopSaveContext: the model's save context is one fixed context, so a stopped one stands only for a direct `shutdown()` of the registered `ZUtils-RegionBlock` context. `saveAsync` (RegionBlockStorage.java:119) looks that context up by name on every save, so after `UtilsAsync.shutdownAll` the source builds a fresh running context and queues the save instead of running it inline. The load context (`IO_CONTEXT`, line 20) is fetched once, as modelled.
- Real concurrency. Threads, daemon flags, volatile visibility and the 5-second `awaitTermination`/`shutdownNow` of `AsyncContext.shutdown` are not modelled. Queued work runs through explicit steps (`RunNextJob`, `FireTimer`, `RunNextLoad`, `RunNextSave`). `Shutdown` keeps queued jobs and delayed one-shots and cancels periodic tasks, following the default `ScheduledThreadPoolExecutor` policies.
- `Throwable`s other than `Exception` escaping a supplier are not modelled.
- The callers of `runAsync` in the storage pass value-returning lambdas. The model treats these as "run and discard the result".
- Debug logging and `printStackTrace` are left out. The printed exceptions of periodic runs are kept as `Logged`.
- Duration.ParseValue: Long overflow, `TimeUnit` saturation and `Long.parseLong` failure on oversized digit runs are not modelled; amounts are unbounded integers.
- Duration.Normal: `trim` and `toLowerCase` cover ASCII only, without Unicode case folding. The trim lemmas bound only the length.
- Duration.Deserialize: a JSON number is a whole number. Fractional JSON numbers are not modelled.
- FormatMessage tokenising. The tokenising regex is not modelled: `ParseLegacy` takes the token sequence the matcher would find, with the text between tokens as `Text` tokens of UTF-16 code units (`Utf16` gives them for a Dafny string, whose characters are Unicode scalar values). `formatMessage`, TinyMsg and the gradient colour computation (`interpolate`, `toHex`) are left out. The interpolated colour is the `shade` parameter.
- The message tree is an arena of nodes with parent indices. In-place aliasing of Hytale `Message` objects is not modelled.
- Rewards.ParseIntOr: accepts ASCII digits only. Java's `Integer.parseInt` also accepts other Unicode decimal digits (Arabic-Indic, fullwidth and so on), so `SaveTarget` and every reward amount reject some texts the source would parse.
- Rewards.MoneyAmountOf: money amounts stay text (`Exact`, `Between`). `Double.parseDouble`, `nextDouble(min, max)` and the BigDecimal conversion are not modelled, so a money amount that is not a number (`money:e:c:abc`) is not reported as NumberFormatException, and a range whose minimum is not below its maximum (`money:e:c:5-1`) is not reported as the IllegalArgumentException of `nextDouble`.
- Rewards.Reward.MoneyReward: reports neither of those two exceptions, for the reason given under Rewards.MoneyAmountOf.
- Rewards.MoneyGrammar: states the grammar of amounts that are numbers; the two exceptions above are not modelled.
- Rewards.Reward.ItemReward: the checks the Hytale `ItemStack` constructor makes on the id and the amount are not modelled, and neither is the notification packet.
- RewardBundles.Drawn: the roulette pick (`getRandomReward`) and `getTotalWeight` are floating point. Draw i is modelled as pool entry `picks(i) mod |pool|`. With a non-empty pool this includes the weighted choice but does not encode the weights, and floating-point rounding that makes the roulette return null is not modelled.
- RewardBundles.GiveRewards: the asynchronous `getOnlinePlayer` lookup through `Universe` and the `supply(...).thenAccept(...)` chain are left out. Its result is the `online` parameter.
- EventChannel: listeners that subscribe or unsubscribe while `emit` iterates (ConcurrentModificationException) are not modelled. A listener's own effect is the `throws` predicate.
- Economy providers (`ZEconomyProvider`, `EcoTaleEconomyProvider`, `EconomySystemProvider`) are abstract function fields; BigDecimal is `real`.
- `StringValidator` is a one-line delegate to `ValidatorUtil.match` and is not modelled separately.
- `UtilsFile`, the ECS systems, commands, configuration loading, event payload classes and plugin lifecycle are outside the modelled core.

Where the code and its documentation disagree, the model follows the code:

- `UtilsAsync.getContext` never returns null, although its doc comment says it may. It builds a missing context with base name `modId + "-Worker"`, so its threads are named `modId-Worker-Worker` and `modId-Worker-Scheduler`.
- `DurationValue` documents `mo` as months. The pattern tries `m` first, so `2mo` is two minutes (`Duration.ParseMonthSuffix`).
- The invalid-unit branch of `parse` is unreachable (`Duration.UnitAt`).
- `Reward` documents `item:<amount>-<amount>` ranges. A negative plain amount also contains `-`, so it is read as a range and throws (`Rewards.NegativeAmountFails`). A range ending at 2147483647 overflows `max + 1` (`Rewards.RangeToMaxOverflows`).
- A weighted `AdvancedRewards` with no positive weight throws at the first draw (`RewardBundles.EmptyPoolThrows`).

## Findings

| source | as written | input that shows it | evidently intended | confidence | as-written member | corrected member |
|---|---|---|---|---|---|---|
| src/main/java/dev/zonary123/zutils/models/rewards/AdvancedRewards.java:41 | the default reward list starts with `new Reward("item:Soil_Dirt", 1.0)`, which has no amount field, so `giveItemReward` reads `parts[2]` of a two-element array and throws ArrayIndexOutOfBoundsException | a default `AdvancedRewards`, any player, any roll | `"item:1:Soil_Dirt"`, the format of the no-argument `Reward` (Reward.java:29) | not executed | RewardBundles.DefaultItemAsWrittenFails | RewardBundles.DefaultItemGives |

The model's default bundle `RewardBundles.DEFAULT` keeps the list as written (`DEFAULT_REWARDS`), which fails whenever the item is drawn (`RewardBundles.DefaultBundleFails`). The corrected list is `DEFAULT_REWARDS_CORRECTED`, in `DEFAULT_CORRECTED` (`RewardBundles.DefaultCorrectedGivesDirt`).
