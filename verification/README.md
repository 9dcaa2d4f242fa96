# Verified model of the event pipeline and its task workflow

The repository collects product observations, moves them through Kafka into a Parquet lake and a
PostgreSQL warehouse, and automates its own development with a script that lets one agent implement
a task and another review it. Each part makes a small local promise. This project models the parts
and proves what they promise together, under crashes, redelivery, retries and races.

| Dafny file | what it models |
|---|---|
| `Common`, `Text`, `Events` | options and results, string and number handling, canonical events and their Bronze row |
| `PartitionKey`, `Scanner` | object keys of the lake, the prefix parser and the pruned scan |
| `Schema` | schema evolution checker and row validator |
| `KafkaConsumer`, `ConsumerCalls`, `RawWriter`, `ExactlyOnce` | the commit-after-resolve consumer with its writer, what each call does and when it closes, whole runs of the service, refinement of the failure-free fold |
| `Compaction`, `CompactionSafety`, `CompactionConservation`, `CompactionRuns`, `CompactionCopies` | the compactor as step machine and as class; what it keeps with and without writers; one call as a run; how many copies interruptions leave |
| `Warehouse`, `WarehouseSafety`, `WarehouseLoads` | the transactional batch loader, one batch, whole loads |
| `Validation`, `Deduplication`, `DeduplicationSafety`, `Pipeline`, `PipelineSafety` | validation split, deduplication, ordered publication to two sinks |
| `TaskWorkflow`, `WorkflowSafety`, `WorkflowDecisions`, `WorkflowRace`, `WorkflowProgress`, `WorkflowScript`, `RunLock` | the task workflow's phases against an adversarial world, its safety and termination, what each of its decisions depends on, what races can do to it, its progress with cooperating partners, the script as a class, its lock file |
| `Identity`, `LoadTest` | listing ids and the listing/product index; load-test workers |
| `EndToEnd`, `LakeDurability` | results across components; the consumer and the compactor interleaved on one lake |

Kafka, object storage, PostgreSQL, git and the code host are values. What they do in one call is an
explicit script: whether a call takes effect, whether it raises, and both at once (a commit or a put
that raises after it took effect). Every theorem is for all scripts. Imperative code is a class or a
method with the loops of the source, proved equal to a specification function; the theorems are
about those functions and about runs built from them.

Where the code does less than its documentation or its reader might expect, the project keeps the
code, shows the failure, and states the exact condition under which the expectation holds:

- compaction loses a row written over a file between its read and its delete, exactly when the
  file was listed and the partition did not hold the row before (`RewriteSurvivesIff`);
- no event disappears from a partition under rewrites, exactly when the object keys of the rows
  that occur tell their events apart (`NothingLostIff`); the program's keys do so for ids that need
  no sanitising and for the adapters' ids unless sanitising merges two sources or external ids
  (`NoLakeEventLost`, `AdapterKeyEquality`), and not for all (`SanitizeNotInjective`, `KeyEquality`);
- the loader reports a disagreement between two rows of one event only across batches; inside one
  batch the later row is dropped (`CommittedDataIff`, `ClashInOneBatch`, `ClashAcrossBatches`);
- a negative batch size loads nothing and reports success (`SuccessLoadsAllIff`, `BadSizesLoadNothing`);
- with a deduplication state a row can be both duplicate and conflict (`OutputsAddUpIff`); a batch
  lets an event through exactly when its rows agree and are not the recorded version, so another
  version passes every time (`EmittedWithState`, `OtherVersionRepeats`); the retry of a failed batch
  makes the same publish calls exactly when the failure came among its invalid rows or every event
  to publish is another version of one recorded before the batch (`RetryWithStateIff`; for batches
  without contradictions, when there was nothing to publish, `ConsistentRetry`); `PipelineResult.total` counts conflicts twice (`CountsAddUp`);
- the pipeline publishes the last message of an id, not the validated row (`PublishesOnlyValidIff`,
  `InvalidPublished`); `deserialize_event` already rejects what validation rejects
  (libs/event_contracts/product_observation.py:34-185), so only a caller that builds its events
  without validating them sees an invalid event published
  (the producer checks each message again, libs/common/kafka_producer.py:105-115);
- the approval gate reads HEAD, the report and the diff one after the other and can be raced.
  Merged code is reviewed as soon as one gate for its pair of commits was not raced
  (`GateEstablishes`, `StillGate`, `OnlyReviewedCodeMerged`); with every gate raced, a run from a
  fresh task merges code nobody reviewed (`UnreviewedMerge`, `GateRaces`);
- a BLOCKED verdict is saved as `fix` first, so a crash between the two saves hands the task back
  to the implementer (`BlockedOnlyAfterSecondSave`);
- `sanitize_path_segment("path/../evil")` gives `path_._evil`, not the documented `path___evil`
  (`TraversalKeepsDot`); sanitising is not injective; filtering a scan by the raw source name works
  exactly for names that need no sanitising (`RawSourceFinds`);
- `list_partitions` promises file counts; it strips a set of characters where it means to strip the
  layer's name, so the count is zero for every layer name without an equals sign, and right exactly
  for partitions without parquet files (`FileCountIff`);
- the schema checker says IDENTICAL for reordered columns and for columns that became nullable
  (`IdenticalIff`); with repeated column names it is unsound exactly when an entry of the new
  version demands a value that no entry of the old one demanded (`SoundIff`, `RepeatedNameUnsound`);
- a listing id can be taken apart again exactly when its source has no colon
  (`ListingIdRoundTripIff`);
- load-test workers overshoot the event limit by up to W - 1 (`OvershootBounded`, `OvershootReached`).

## Model

| member | source | states |
|---|---|---|
| `PartitionKey.SanitizePathSegment` | libs/partitioning/partition_key.py:79-86 | the replace loop ends, for any replacement text, with the one-pass result: NUL dropped, unsafe characters mapped, each run of dots one dot; no `..` remains |
| `PartitionKey.SanitizeFixesExactlySafe` | libs/partitioning/partition_key.py:52-86 | for a replacement of safe characters the result is a safe segment, sanitising is idempotent, and it leaves exactly the safe segments alone |
| `PartitionKey.SafeSegmentHarmless` | libs/partitioning/partition_key.py:55-56 | a safe segment has no slash, backslash, equals sign or NUL |
| `PartitionKey.SafeCharIff` | libs/partitioning/partition_key.py:55-56 | the safe characters are the ASCII letters and digits, hyphen, dot and underscore, given by their codes |
| `PartitionKey.NulIgnored` | libs/partitioning/partition_key.py:70-86 | NUL characters anywhere in a segment make no difference to its sanitised form |
| `PartitionKey.TraversalKeepsDot` | libs/partitioning/partition_key.py:70-86 | what a traversal between two safe names becomes; the documented example disagrees |
| `PartitionKey.SanitizeNotInjective` | libs/partitioning/partition_key.py:52-86 | two ids with one sanitised form |
| `PartitionKey.AdapterKeyEquality` | libs/adapters/protocol.py:178-228 | for the ids the adapters build (source, external id and ISO time joined by colons) two events share an object key if and only if layer, sanitised source, sanitised external id and collection time agree |
| `PartitionKey.KeyEquality` | libs/partitioning/partition_key.py:122-133 | two events share an object key if and only if layer, sanitised source, collection date and sanitised id agree |
| `PartitionKey.KeyText` | libs/partitioning/partition_key.py:122-133 | the object key as text: `bronze/` or `silver/`, then `source=`, `year=`, `month=` and `day=` directories, then the sanitised id and `.parquet` |
| `Scanner.ParseInvertsBuild` | libs/parquet_reader/scanner.py:40-79 | the prefix parser inverts the directory part of the key builder |
| `Scanner.ParsedIsShaped` | libs/parquet_reader/scanner.py:40-79 | a prefix that parses is, up to trailing slashes, `layer/source=s/year=y/month=m/day=d` with integers in the last three |
| `Scanner.ShapedParses` | libs/parquet_reader/scanner.py:40-79 | and every such prefix parses, to these parts |
| `Scanner.InRangeIff` | libs/parquet_reader/scanner.py:151-160 | a date is admitted if and only if its number lies between those of the start and the end, both included |
| `Scanner.MakeDateIff` | libs/parquet_reader/scanner.py:154-155 | a partition has a date if and only if its numbers name a day of the calendar |
| `Scanner.PartitionPrefixes` | libs/parquet_reader/scanner.py:133-149 | the prefix set holds exactly the five-part directories of the listed keys, each once |
| `Scanner.PartitionOfIff` | libs/parquet_reader/scanner.py:137-149 | the directory part of a key is five directories deep, and the key, or the key taken for a directory, lies in it |
| `Scanner.ListPartitions` | libs/parquet_reader/scanner.py:151-171 | exactly the parseable partitions within the dates, each once, sorted by prefix, each described by its prefix and the count the source takes; raises exactly if some listed partition has no calendar date |
| `Scanner.FileCountIff` | libs/parquet_reader/scanner.py:162-167 | under a layer whose name has no equals sign the count of every partition is zero, so it is the number of its parquet files if and only if there are none |
| `Scanner.DiscoverFiles` | libs/parquet_reader/scanner.py:245-285 | for every filter, each parquet key at most once, and exactly those whose own directory is that of a listed key and lies within the dates; raises exactly as the listing does |
| `Scanner.ChosenIffSelected` | libs/parquet_reader/scanner.py:245-285 | for filters without slashes in their names that is: exactly the parquet keys under the scanned prefix and within the dates |
| `Scanner.PruningIsExact` | libs/parquet_reader/scanner.py:133-171 | a file in a partition directory, compacted or not, is selected if and only if layer and source match and the date is in range |
| `Scanner.EventSelected` | libs/partitioning/partition_key.py:122-133 | the file of an event is selected if and only if the filter covers its layer, sanitised source and collection date |
| `Scanner.RawSourceFinds` | libs/parquet_reader/scanner.py:122-126 | filtering by the raw source name, whatever it contains, finds the event's file if and only if that name is a safe segment |
| `Scanner.LakeNeverRaises` | libs/parquet_reader/scanner.py:151-160 | on a bucket of lake files discovery never raises |
| `Schema.CompareFields` | libs/schema/parquet_schemas.py:140-211 | the three loops list removed, added and changed columns in order |
| `Schema.ReportsExactly` | libs/schema/parquet_schemas.py:140-211 | a change is reported if and only if it is true of the two versions: removed, added, retyped or newly required, each with its own breaking flag |
| `Schema.CheckDecidesEvolution` | libs/schema/parquet_schemas.py:223-258 | not INCOMPATIBLE if and only if nothing was removed, nothing required was added, and every common column keeps or widens its type and its nullability |
| `Schema.EvolutionReflexive` | libs/schema/parquet_schemas.py:223-258 | a version compared with itself is IDENTICAL |
| `Schema.EvolutionTransitive` | libs/schema/parquet_schemas.py:223-258 | compatibility composes across versions |
| `Schema.ValidateRowAgainstSchema` | libs/schema/parquet_schemas.py:309-362 | the loops collect one error per null, mistyped or missing required column |
| `Schema.ErrorsExactly` | libs/schema/parquet_schemas.py:309-362 | an error is reported if and only if the row has that fault: null in a required column, a value that its column cannot store, or a required column absent |
| `Schema.ValidationDecidesConformance` | libs/schema/parquet_schemas.py:261-362 | no errors if and only if every value fits its column and no required column is absent |
| `Schema.EvolutionSound` | libs/schema/parquet_schemas.py:140-362 | a row valid under the old version is valid under a compatible new one if and only if its values under newly added columns fit them; always when it has old columns only |
| `Schema.ChainSound` | libs/schema/parquet_schemas.py:223-362 | the same along any chain of compatible versions |
| `Schema.SoundIff` | libs/schema/parquet_schemas.py:140-362 | for compatible versions, whatever names they repeat: all rows over the old columns stay valid if and only if every entry of the new version that demands a value has an entry of that name in the old one that did |
| `Schema.RepeatedNameUnsound` | libs/schema/parquet_schemas.py:140-211 | with a repeated name that fails although the checker says IDENTICAL |
| `Schema.IdenticalIff` | libs/schema/parquet_schemas.py:223-258 | IDENTICAL if and only if the column names are the same in any order, with the same types, and no nullable column became required |
| `Events.RowsConformToBronze` | libs/raw_writer/bronze_writer.py:54-90 | every row the writer builds conforms to the Bronze schema |
| `Events.RowLossless` | libs/raw_writer/bronze_writer.py:54-90 | events with the same Bronze row agree in every field |
| `Events.RowHoldsEvent` | libs/raw_writer/bronze_writer.py:54-90 | the row has thirteen columns, and read by column name each holds that field of the event |
| `Events.YearLength` | libs/parquet_reader/scanner.py:151-160 | the calendar behind the dates: a year has 365 days, a leap year 366 |
| `Events.MonthLengths` | libs/parquet_reader/scanner.py:151-160 | the length of every month, leap years included |
| `Schema.BronzeColumns` | libs/schema/parquet_schemas.py:49-69 | name, type and nullability of every Bronze column |
| `Kafka.MakeRetryPolicy` | libs/common/kafka_errors.py:24-33 | exactly the policies within the limits are built, as given |
| `Kafka.BronzeWriter.WriteEvent` | libs/raw_writer/bronze_writer.py:196-220 | one put at the event's deterministic key, which may raise before or after taking effect; when it took effect the stored row, read by column name, holds every field of the event; it raises if and only if the put does, so the schema check never rejects |
| `Kafka.KafkaConsumer.PollRecord` | libs/common/kafka_consumer.py:163-265 | refuses when closed, returns nothing after a signal, else moves the position by one record |
| `Kafka.KafkaConsumer.RunHandler` | libs/common/kafka_consumer.py:295-317 | the retry loop: stops on success, permanent failure, crash or shutdown, and after `max_attempts` |
| `Kafka.KafkaConsumer.ResolveRecord` | libs/common/kafka_consumer.py:318-344 | dead-letter if failed, then commit offset + 1, closing on anything unresolved |
| `Kafka.KafkaConsumer.CommitOffset` | libs/common/kafka_consumer.py:390-412 | a commit that raises may have been stored |
| `Kafka.KafkaConsumer.ProcessNextRecord` | libs/common/kafka_consumer.py:267-344 | the whole call equals its specification on broker, store, consumer and counters |
| `ConsumerCalls.StaysOpenIff` | libs/common/kafka_consumer.py:267-344 | an open consumer is open after a call if and only if there was no broker error and, if a record was fetched, none of these: no metadata, a signal before it was settled, an unexpected error, a refused dead letter, a commit that raised |
| `ConsumerCalls.FetchingCall` | libs/common/kafka_consumer.py:267-344 | the whole effect of a call that fetches a record, in terms of its deciding attempt: position, store, counters, commit, dead letter, result, and whether it closes |
| `ConsumerCalls.CallWithoutRecord` | libs/common/kafka_consumer.py:281-285 | a call without a record returns False and changes nothing but a pending signal; a broker error raises and closes |
| `ConsumerCalls.CallThatMayNot` | libs/common/kafka_consumer.py:163-200 | with a signal pending a call does nothing and returns False, and a closed consumer refuses |
| `ConsumerCalls.QuietCallDropped` | services/raw-writer/consumer.py:141-155 | calls without a record and without a signal can be dropped from the main loop |
| `ConsumerCalls.MainLoopEnds` | services/raw-writer/consumer.py:141-155 | the main loop ends with the first call that raises, and always leaves the consumer closed |
| `ConsumerCalls.LoopEndsAt` | libs/common/kafka_consumer.py:295-317 | the retry loop ends with the first attempt that succeeds, fails for good, crashes or follows a signal, or with the last allowed one; how it ends, its number of calls and the store follow from that attempt (there is one: `SomeAttemptDecides`) |
| `RawWriter.RunKeepsInv` | libs/common/kafka_consumer.py:281-344 | over every run: each offset below the committed one was processed or acknowledged, commits never go back, and an open consumer has nothing unresolved and CONSUMED = PROCESSED + DEAD_LETTERED |
| `RawWriter.CallBounded` | libs/common/kafka_consumer.py:292-312 | at most `max_attempts` handler calls and at most 225 seconds of sleep |
| `RawWriter.RetriesUntilSuccess` | libs/common/kafka_consumer.py:295-314 | a handler that fails transiently until attempt k is called exactly k times and succeeds if k is within the policy, else `max_attempts` times and fails, with exactly the budgeted sleep |
| `RawWriter.TotalBudget` | libs/common/kafka_errors.py:24-33 | the sleep budget is backoff * n * (n - 1) / 2 |
| `ExactlyOnce.EffectsExactlyOnce` | libs/common/kafka_consumer.py:267-344 | over every run with crashes, ambiguous puts and commits, signals and restarts, each partition's part of the Bronze store is the last-write-wins fold of its log up to the committed offset, or of one record more (the empty system starts so: `InitialStoreInv`) |
| `ExactlyOnce.RecoveryConverges` | libs/raw_writer/bronze_writer.py:196-220 | from any reachable state, if all records of the partition are well-formed and no key is shared between partitions, a restart and one clean call per remaining record give exactly the failure-free fold (for a malformed record see `MalformedBlocksPartition`) |
| `ExactlyOnce.MalformedBlocksPartition` | services/raw-writer/consumer.py:46-66 | the sink fails closed: no run commits past a malformed record |
| `ExactlyOnce.MainLoopIsRun` | services/raw-writer/consumer.py:141-155 | a run of the main loop is a run of the system |
| `ExactlyOnce.RunConsumer` | services/raw-writer/consumer.py:116-155 | the loop as written equals its specification |
| `Compaction.CompactedIsNotSource` | libs/compaction/compactor.py:7-9 | a compacted file is never a source again |
| `Compaction.Sources` | libs/compaction/compactor.py:129-133 | exactly the parquet keys of the listing that are not compacted ones, each once |
| `Compaction.ParquetCompactor.DiscoverPartitions` | libs/compaction/compactor.py:88-110 | a prefix is returned if and only if the listing holds enough, and at least one, of the keys that lie directly in it (it ends with a slash and the rest of the key has none), end with `.parquet` and are not compacted files; sorted, each once |
| `Compaction.KeyIsParentAndName` | libs/compaction/compactor.py:97-107 | a key is its directory, which ends with a slash, and a name without one |
| `EndToEnd.WriterKeyParent` | libs/compaction/compactor.py:97-110 | the directory a writer's file is counted in is the partition directory of its event |
| `Compaction.ParquetCompactor.CompactPartition` | libs/compaction/compactor.py:112-195 | store and result for every place where the call may fail, before or after a storage call took effect |
| `Compaction.ParquetCompactor.WriteAndSwap` | libs/compaction/compactor.py:154-175 | put, validate the count, discard on mismatch, else delete the sources |
| `Compaction.ParquetCompactor.DeleteAll` | libs/compaction/compactor.py:172-173 | sources go one by one, in order, up to the failure |
| `CompactionRuns.DiscoveredIsCompacted` | libs/compaction/compactor.py:97-136 | a discovered partition always reaches the threshold that `compact_partition` tests |
| `CompactionRuns.CompactIsRun` | libs/compaction/compactor.py:127-195 | every call, wherever it fails, is a legal run of the step machine; it reports success if and only if that run completed |
| `CompactionRuns.CallConserves` | libs/compaction/compactor.py:112-195 | without writers every call keeps the partition's set of rows and all other objects; a successful one keeps the number of each row and leaves no source |
| `CompactionRuns.CallReports` | libs/compaction/compactor.py:112-195 | the counters and the errors of the result, for every place where a call may fail |
| `CompactionRuns.CallLeaves` | libs/compaction/compactor.py:112-195 | exactly which files a call leaves, and with which rows, wherever it fails: the compacted file from its put on, unless it was torn and could be removed; the sources up to those deleted after a count that agreed; everything else untouched |
| `CompactionRuns.CleanCallCompacts` | libs/compaction/compactor.py:135-175 | a call with enough files, a whole put and no failure reports success, leaves no source and keeps the number of every row |
| `CompactionSafety.NoEventDisappears` | libs/compaction/compactor.py:112-195 | with writers and crashes between any two steps, over any number of attempts, an event id once in the partition stays in it, if the keys of the rows at the start and in the writes tell their events apart |
| `CompactionSafety.NothingLostIff` | libs/compaction/compactor.py:112-195 | that condition is exact: from an empty store no run over some rows loses an event if and only if their keys tell their events apart |
| `CompactionSafety.NoRowDisappearsUnderReplay` | libs/raw_writer/bronze_writer.py:196-220 | nor does any row, when writers only repeat the row that belongs at a key |
| `CompactionConservation.RowsNeverChange` | libs/compaction/compactor.py:140-173 | without writers the set of rows is the same at every step and other partitions are untouched; without crashes finished attempts conserve the multiset; a completed one leaves no source |
| `CompactionConservation.SwapConserves` | libs/compaction/compactor.py:151-173 | replacing the sources by one file of their rows conserves the multiset of all rows |
| `CompactionConservation.CopiesBounded` | libs/compaction/compactor.py:154-173 | after k attempts broken off with their compacted file in the store, and any number of others, at most k extra copies of a source row, and one more while an attempt is at that point |
| `CompactionCopies.CopiesReached` | libs/compaction/compactor.py:154-173 | for every k there is a run with k such attempts and exactly k extra copies |
| `CompactionRuns.RewriteRun` | libs/compaction/compactor.py:142-173 | a writer's put over a listed file, at any moment between the read and the delete of that file, or over no listed file, is a legal run that completes, and the store it leaves is the same for all these moments |
| `CompactionRuns.RewriteSurvivesIff` | libs/compaction/compactor.py:142-173 | the row of that put is in the partition afterwards if and only if its key was not listed or the partition held the row before, in that file or any other |
| `Warehouse.WarehouseLoader.MapAll` | warehouse/loader/batch_loader.py:247-248 | the mapped rows, or the error of the first row that cannot be mapped |
| `WarehouseSafety.MapErrors` | warehouse/loader/batch_loader.py:284-357 | which error a row gives and when: the first missing field in order, then price, then time |
| `WarehouseSafety.FirstBadRow` | warehouse/loader/batch_loader.py:247-248 | the error of a batch that cannot be mapped is that of its first bad row |
| `Warehouse.WarehouseLoader.UpsertSources` | warehouse/loader/batch_loader.py:359-388 | every source name inserted unless present |
| `Warehouse.WarehouseLoader.UpsertSourceProducts` | warehouse/loader/batch_loader.py:473-515 | every (source_id, external_id) inserted unless present, rows without a source skipped |
| `WarehouseSafety.SourceProductUrls` | warehouse/loader/batch_loader.py:473-515 | a source product that was there keeps its url, and each new one has the url of a row of the batch with its source and external id |
| `Warehouse.WarehouseLoader.InsertObservations` | warehouse/loader/batch_loader.py:536-630 | raises on the first row that disagrees with a stored observation, else inserts unless present |
| `WarehouseSafety.FirstDisagreement` | warehouse/loader/batch_loader.py:583-614 | the conflict that is raised is that of the first row whose event is stored with other data |
| `Warehouse.WarehouseLoader.RunBatch` | warehouse/loader/batch_loader.py:226-282 | one transaction: commit, rollback, or a commit that raises |
| `Warehouse.WarehouseLoader.ProcessDataframe` | warehouse/loader/batch_loader.py:190-224 | the batch loop stops at the first failing batch and counts its rows |
| `WarehouseSafety.NoRowSkipped` | warehouse/loader/batch_loader.py:475-566 | every "id not found, continue" branch is unreachable |
| `WarehouseSafety.RaisesExactly` | warehouse/loader/batch_loader.py:583-614 | a batch raises if and only if a row is malformed or disagrees with an observation stored before it |
| `WarehouseSafety.CommittedBatch` | warehouse/loader/batch_loader.py:557-630 | the whole observation table after a commit: old entries unchanged, each new event with the data of its first row and a link to that row's source product |
| `WarehouseSafety.CommittedDataIff` | warehouse/loader/batch_loader.py:583-630 | a committed batch has stored the data of all its rows if and only if they agree among themselves |
| `WarehouseSafety.ClashInOneBatch` | warehouse/loader/batch_loader.py:596-630 | two disagreeing rows in one batch: it commits the first and drops the second |
| `WarehouseSafety.ClashAcrossBatches` | warehouse/loader/batch_loader.py:596-614 | the same rows in two batches: the second raises |
| `WarehouseLoads.FailureLeavesPrefix` | warehouse/loader/batch_loader.py:202-224 | after a load that stopped anywhere the tables equal those of loading a prefix of the rows alone, which is whole batches or everything, and the counters say how many rows that is |
| `WarehouseLoads.RowsTell` | warehouse/loader/batch_loader.py:190-224 | rows loaded and rows failed of every load: all are loaded without an error, else the failed ones are the batch at which it stopped |
| `WarehouseLoads.CreatedTells` | warehouse/loader/batch_loader.py:190-224 | observations created are the growth of the table, in every load in which no commit both took effect and raised |
| `WarehouseLoads.BadSizesLoadNothing` | warehouse/loader/batch_loader.py:202-217 | a batch size of zero raises, a negative one loads nothing and reports success |
| `WarehouseLoads.FaultsOfTransaction` | warehouse/loader/batch_loader.py:226-282 | a commit that took effect leaves what an undisturbed one would, even if it raised; any other failure leaves the tables alone; every failure is reported |
| `WarehouseLoads.StoredForever` | warehouse/loader/batch_loader.py:620-630 | no load ever changes the data or the link of a stored observation |
| `WarehouseLoads.ConflictFreeLoads` | warehouse/loader/batch_loader.py:190-224 | conflict-free rows load without error for every batch size, and each event ends with its rows' data |
| `WarehouseLoads.LoadsForEverySizeIff` | warehouse/loader/batch_loader.py:190-224 | rows load without error for every positive batch size if and only if they are conflict-free: they map, agree among themselves and agree with what is stored |
| `WarehouseLoads.RowReadBack` | warehouse/loader/batch_loader.py:284-357 | after a conflict-free load every field of every row can be read back from the observation of its event |
| `WarehouseLoads.OrderAndBatchesIrrelevant` | warehouse/loader/batch_loader.py:202-224 | for conflict-free rows the stored data does not depend on row order, repetition or batch size |
| `WarehouseLoads.ReloadConverges` | warehouse/loader/batch_loader.py:277-282 | for conflict-free rows, reloading everything after a failure ends with the data of an uninterrupted load |
| `WarehouseLoads.SuccessLoadsAllIff` | warehouse/loader/batch_loader.py:202-217 | a load without an error loaded every row if and only if the batch size is positive |
| `WarehouseLoads.LoadKeepsTables` | warehouse/loader/batch_loader.py:359-630 | unique ids and valid references in all tables after every load, whatever failed |
| `WarehouseLoads.LinkLeadsBack` | warehouse/loader/batch_loader.py:545-555 | in such tables a link leads to the source name and external id of its row and to nothing else |
| `Validation.ValidIffAcceptable` | services/processor/data_validation.py:85-172 | a row is on the valid side if and only if it meets every rule of the specification |
| `Validation.MessagesExactly` | services/processor/data_validation.py:120-172 | a message is among a row's errors if and only if the row breaks its rule; the rules are written out |
| `Validation.JoinedText` | services/processor/data_validation.py:85-118 | the messages of a row are joined by a semicolon and a blank |
| `Deduplication.DeduplicationState.CheckAndUpdate` | services/processor/deduplication.py:85-102 | flags and state after one pass; a recorded hash is never replaced |
| `Deduplication.FlagIff` | services/processor/deduplication.py:85-102 | a row is flagged if and only if its hash is the one recorded for its event when it is reached |
| `Deduplication.Deduplicate` | services/processor/deduplication.py:109-165 | with and without a state, the three outputs and the new state |
| `DeduplicationSafety.SplitPartitions` | services/processor/deduplication.py:43-63 | without a state the outputs are a three-way partition of the batch |
| `DeduplicationSafety.SplitOfClash` | services/processor/deduplication.py:193-213 | an event with two different hashes goes whole to the conflicts |
| `DeduplicationSafety.SplitOfGroup` | services/processor/deduplication.py:193-213 | any other event keeps its first row, and the rest are duplicates |
| `DeduplicationSafety.OutputsAddUpIff` | services/processor/deduplication.py:149-159 | with a state every row is in an output, and the outputs add up if and only if no row of a conflicting group repeats the recorded hash |
| `DeduplicationSafety.CuttingIsIrrelevant` | services/processor/deduplication.py:181-213 | a stream without contradictions, however cut into batches, comes out as the first occurrence of each event, in order |
| `DeduplicationSafety.FirstVersionAtMostOnce` | services/processor/deduplication.py:85-102 | over all batches of any stream the first recorded version of an event comes out at most once |
| `DeduplicationSafety.EmittedWithState` | services/processor/deduplication.py:85-165 | for any batch and any event in it, with a state: its first row and nothing else comes out if its rows agree and are not the recorded version, else nothing does |
| `DeduplicationSafety.OtherVersionRepeats` | services/processor/deduplication.py:93-101 | so another version of a recorded event passes each time it comes |
| `Pipeline.Sinks.Send` | services/processor/pipeline.py:266-267 | one sink call, which may raise before or after delivery |
| `Pipeline.ProcessorPipeline.BuildIndex` | services/processor/pipeline.py:211-215 | the index maps each id to its last message |
| `Pipeline.ProcessorPipeline.PublishRows` | services/processor/pipeline.py:241-313 | a publish loop makes its calls in row order and stops at the first that raises |
| `Pipeline.ProcessorPipeline.ProcessBatch` | services/processor/pipeline.py:174-239 | calls delivered, deduplication state and result for every place where a sink raises |
| `PipelineSafety.LookupNeverMisses` | services/processor/pipeline.py:248-256 | every row finds its message, and the call is made for the last message of the id |
| `PipelineSafety.CallsExactly` | services/processor/pipeline.py:241-313 | every call of a batch, with or without a state: one to the invalid sink for each invalid row, with its own errors, one conflict for each row of the conflicts, one publication for each deduplicated row, in this order, each for the last message of the row's id |
| `PipelineSafety.ContradictionsReported` | services/processor/pipeline.py:269-294 | with or without a state, nothing is published of an event whose valid rows disagree, each of these rows gives one conflict call, and no other event gives any |
| `PipelineSafety.ConflictsExactly` | services/processor/deduplication.py:149-213 | the conflicts are the rows of the events whose rows disagree, all of them and in order, and nothing of these events is let through |
| `PipelineSafety.CountersAreCalls` | services/processor/pipeline.py:226-239 | the counters of a result are the numbers of its publish, invalid plus conflict, and conflict calls, and of the duplicates dropped |
| `PipelineSafety.DeliveredExactly` | services/processor/pipeline.py:174-239 | when a call raises, exactly the calls before it were delivered, and it itself if it took effect |
| `PipelineSafety.CountsAddUp` | services/processor/pipeline.py:65-82 | without a state the published, invalid and skipped counts add up to the batch; `total` exceeds it by the conflicts |
| `PipelineSafety.RetryWithoutState` | services/processor/__main__.py:126-130 | without a state, as production builds it, a retry delivers the whole sequence, of which the failed attempt had delivered a prefix; an attempt raises if and only if the fault falls within its calls |
| `PipelineSafety.RetryWithStateIff` | services/processor/pipeline.py:226-237 | with a state, for every batch that failed: its retry makes the same publish calls if and only if the failure came among its invalid rows or every event to publish is another version of one recorded before the batch; after a later failure the retry lets exactly these events through |
| `PipelineSafety.ConsistentRetry` | services/processor/pipeline.py:226-237 | for a batch that contradicts neither itself nor the state: if and only if the failure came among its invalid rows or it had nothing to publish; otherwise the retry publishes nothing |
| `PipelineSafety.PublishesOnlyValidIff` | services/processor/pipeline.py:296-313 | with or without a state, only valid events are published if and only if every id that the batch lets through (its valid messages agree and are not the recorded version) has a valid last message |
| `PipelineSafety.InvalidPublished` | services/processor/pipeline.py:211-215 | a valid message followed by an invalid one of its id: the invalid event is published as valid (the caller must have built it without validation) |
| `TaskWorkflow.VerdictApprovedExactly` | scripts/task_workflow.py:60-79 | APPROVED if and only if the report has one footer, naming this head, with zero blocking findings |
| `TaskWorkflow.VerdictExactly` | scripts/task_workflow.py:60-79 | CHANGES REQUIRED, or BLOCKED, if and only if the report has one footer, naming this head, with that verdict and a count of blocking findings |
| `TaskWorkflow.ChecksPassIff` | scripts/task_workflow.py:82-88 | checks pass if and only if there are any, all passed, and each required name is that of one of them |
| `WorkflowScript.Workflow.Approved` | scripts/task_workflow.py:326-344 | the gate: HEAD, report and diff read one after the other while the world goes on |
| `WorkflowScript.Workflow.ViewPullRequest` | scripts/task_workflow.py:346-365 | a pull request other than the approved one stops the run |
| `WorkflowScript.Workflow.RunImplementer` | scripts/task_workflow.py:226-260 | one attempt, paid for before the agent starts, which must leave a new commit |
| `WorkflowDecisions.NoCommitNoReview` | scripts/task_workflow.py:226-260 | an attempt that leaves HEAD where it was never reaches review |
| `WorkflowDecisions.AttemptBegins` | scripts/task_workflow.py:226-250 | an attempt is counted, and the commit it starts from saved, before the agent is launched; a spent budget stops it |
| `WorkflowDecisions.DirtyCheckoutStops` | scripts/task_workflow.py:54-57 | uncommitted changes stop every phase on the task branch before anything is saved, launched, merged or reviewed |
| `WorkflowDecisions.DirtyStart` | scripts/task_workflow.py:561-570 | nor does a task start, or a second review, in such a checkout |
| `WorkflowScript.Workflow.RunReview` | scripts/task_workflow.py:262-324 | reviewing agent, verdict, report commit and the save that follows |
| `WorkflowDecisions.ReviewSawHead` | scripts/task_workflow.py:262-310 | the commit a verdict is about is still HEAD when the agent has answered |
| `WorkflowDecisions.VerdictRecorded` | scripts/task_workflow.py:313-324 | what the save after a verdict records |
| `WorkflowDecisions.ChangesAlwaysRecorded` | scripts/task_workflow.py:309-320 | after a review that asks for changes only the commands of committing the report and saving can fail |
| `WorkflowScript.Workflow.Publish` | scripts/task_workflow.py:367-412 | gate, push, one pull request; the push moves the branch and the open pull requests that follow it |
| `WorkflowScript.Workflow.CheckCi` | scripts/task_workflow.py:414-501 | polling, failed checks back to `fix`, gate again, merge command, which the host may accept without merging, and confirmation |
| `WorkflowDecisions.MergeOnlyWhenGreen` | scripts/task_workflow.py:468-495 | a poll issues a merge command only if its list was complete, every required name in it passed, nothing failed or was pending, and merging was asked for; so none while a required name is missing or a check is pending |
| `WorkflowDecisions.PollOutcome` | scripts/task_workflow.py:464-501 | what each poll decides: a truncated list stops the run, a failed check sends the task to `fix`, a missing or pending one waits, green ones merge, or pause without the option |
| `WorkflowDecisions.PollsRunOut` | scripts/task_workflow.py:414-501 | polls that never decide end in the deadline, without a merge command and with the state kept |
| `WorkflowDecisions.AlreadyMerged` | scripts/task_workflow.py:414-418 | a pull request that is merged already is recorded without checks and without a merge command |
| `WorkflowDecisions.MergeNeedsPullRequest` | scripts/task_workflow.py:480-495 | a pull request with another head, branch, base or repository than the approved one stops the run before any merge command |
| `WorkflowDecisions.MergesAtHeadOnly` | scripts/task_workflow.py:485-495 | a merge command changes at most that pull request, from open to merged, and only while its head is the one named |
| `WorkflowDecisions.MergesNameRequired` | scripts/task_workflow.py:477-495 | over all histories: each merge command requires the names recorded in the state and those given to the invocation that issued it, and these only |
| `WorkflowDecisions.PublicationRecords` | scripts/task_workflow.py:367-412 | more than one open pull request stops the run; else the listed or the created one is recorded |
| `WorkflowScript.Workflow.Cleanup` | scripts/task_workflow.py:503-545 | only after a confirmed merge: worktree and local branch, then the branch on the host if it is still at the approved head |
| `WorkflowDecisions.CleanupNeedsMerge` | scripts/task_workflow.py:503-506 | cleanup does nothing unless the host says the task's pull request was merged at the approved head |
| `WorkflowDecisions.CleanupNeedsClean` | scripts/task_workflow.py:507 | nor in a dirty checkout |
| `WorkflowDecisions.CleanupGates` | scripts/task_workflow.py:512-514 | it finishes a task whose worktree exists only after one more passed gate |
| `WorkflowDecisions.DeletesAtHeadOnly` | scripts/task_workflow.py:533-545 | the branch on the host is deleted only if it is at the approved head at that moment; one that is gone already is no obstacle |
| `WorkflowSafety.CleanupSparesLaterCommits` | scripts/task_workflow.py:529-544 | whatever fails in it, cleanup leaves the branch on the host alone unless it is at the approved head; it completes only with the branch gone, if nobody else moves it meanwhile |
| `WorkflowScript.Workflow.ExecuteTask` | scripts/task_workflow.py:561-591 | start-up and phase loop equal their specification, and end |
| `WorkflowDecisions.StartSets` | scripts/task_workflow.py:561-570 | an unstarted task starts with no rounds and the required names of the arguments, an interrupted preparation is repeated, any other task resumes untouched |
| `WorkflowDecisions.ReviewAgainSets` | scripts/task_workflow.py:561-567 | a second review is refused for an unstarted or merged task and otherwise changes the phase only |
| `WorkflowDecisions.LeftAlone` | scripts/task_workflow.py:571-591 | a task whose agent was interrupted, a blocked and a finished one are not touched by an invocation that does not ask for another review |
| `WorkflowSafety.GateEstablishes` | scripts/task_workflow.py:326-344 | a gate that passes found the approved head to be the reviewed commit plus its approving report, unless HEAD moved between its reads or the report it read is not the committed one |
| `WorkflowSafety.StillGate` | scripts/task_workflow.py:326-344 | it is not raced when nobody touches the checkout between its first and its last read |
| `WorkflowDecisions.GateIff` | scripts/task_workflow.py:326-344 | in a world that stands still the gate passes if and only if the checkout is clean, in place and at the approved head, and that is the reviewed commit plus its approving report |
| `WorkflowDecisions.GateNeedsCheckout` | scripts/task_workflow.py:326-333 | whatever happens meanwhile, it never passes in a checkout found dirty, out of place or at another head |
| `WorkflowDecisions.ReportInWorktree` | scripts/task_workflow.py:336-339 | the gate judges the report as it lies in the worktree, which in a clean one is that of HEAD |
| `WorkflowSafety.OnlyReviewedCodeMerged` | scripts/task_workflow.py:326-501 | over all histories with crashes, re-reviews and a world that moves HEAD, the branch and the pull request between commands and may only queue merges: an approved, merged or done task names a commit that an accepted review approved; phase merged or done implies the pull request was merged at the approved head; every merge command was for such a commit and came after at least three passed gates for the pair it names, with at least one check, all its checks passed and each of its required names among them; what was merged is the reviewed commit plus its approving report as soon as one of the gates for that pair, in any invocation, was not raced; implementer runs stay within the rounds and the rounds within the budget (a new task starts so: `FreshTaskSafe`) |
| `WorkflowRace.UnreviewedMerge` | scripts/task_workflow.py:326-501 | the exception matters: in one invocation of any fresh task, with every gate raced, any commit of the repository without a report is merged |
| `WorkflowRace.GateRaces` | scripts/task_workflow.py:333-344 | such a run from a fresh task to the merged phase exists |
| `WorkflowProgress.FreshTaskFinishes` | scripts/task_workflow.py:226-545 | one invocation takes a fresh task to done, its pull request merged at the report commit on the reviewed commit and its branch deleted, if: every command runs, and between commands nobody moves HEAD, the checkout, the branch or this pull request (commits and other pull requests may come); the host merges at once what it is told to merge; the agent commits and the review approves; the host lists the branch's open pull request, wherever its head is, or none and opens one; the checks are pending in any number of polls and then green |
| `WorkflowRace.CooperationPossible` | scripts/task_workflow.py:226-545 | those conditions can be met, for every number of pending polls |
| `WorkflowSafety.PhaseDecreases` | scripts/task_workflow.py:571-591 | every iteration that goes round lowers (remaining rounds, phase rank) |
| `WorkflowSafety.LinearIterations` | scripts/task_workflow.py:571-591 | at most 5 * `max_rounds` + 5 iterations |
| `RunLock.MutualExclusion` | scripts/task_workflow.py:549-594 | at most one process is inside, in every interleaving with crashes |
| `RunLock.StaleLockExcludes` | scripts/task_workflow.py:550-553 | after a crash nobody enters until the stale lock is removed |
| `RunLock.LockIsReusable` | scripts/task_workflow.py:549-594 | after a release, or after a crash and a checked removal, the next process gets in, and not before |
| `RunLock.UncheckedRemovalBreaksExclusion` | scripts/task_workflow.py:592-594 | removing the file of a live process lets a second one in |
| `Identity.ListingIdRoundTripIff` | libs/marketplace/identity.py:30-54 | a built id can be taken apart into its parts if and only if the source has no colon |
| `Identity.BuildsIff` | libs/marketplace/identity.py:30-54 | an id is built if and only if both parts are non-empty, and is the two joined by a colon |
| `Identity.AcceptedIff` | libs/marketplace/identity.py:250-275 | an id is accepted if and only if something stands before and after its first colon |
| `Identity.ParsedIdRebuilds` | libs/marketplace/identity.py:250-275 | parts of an accepted id build that id |
| `Identity.ColonCollides` | libs/marketplace/identity.py:30-54 | a colon in the source gives two listings one id |
| `Identity.ListingProductMapper.Assign` | libs/marketplace/identity.py:302-332 | assigns or moves one listing and keeps the dictionaries mutually inverse without empty sets |
| `Identity.ListingProductMapper.Clear` | libs/marketplace/identity.py:363-366 | both dictionaries empty |
| `Identity.ListingProductMapper.GetListingIds` | libs/marketplace/identity.py:338-343 | exactly the listings whose product it is |
| `Identity.MutualIff` | libs/marketplace/identity.py:299-300 | mutual inversion determines the second dictionary by the first |
| `Identity.ListingProductMapper.ListingCount` | libs/marketplace/identity.py:353-356 | the number of listings, which is also the sum of the set sizes |
| `LoadTest.EventGenerator.NextEvent` | libs/load_test/event_generator.py:76-103 | the id of the next counter value |
| `LoadTest.IdsDistinct` | libs/load_test/event_generator.py:72-97 | all event ids of a run differ, in every interleaving of its workers |
| `LoadTest.EveryEventAccounted` | libs/load_test/runner.py:244-293 | in every interleaving the events generated are those produced, those whose produce call failed and those in flight |
| `LoadTest.OvershootBounded` | libs/load_test/runner.py:244-265 | in every interleaving, produced plus in-flight is at most total + W - 1 |
| `LoadTest.OvershootReached` | libs/load_test/runner.py:244-265 | that bound is reached |
| `LoadTest.RateSustained` | libs/load_test/runner.py:185-195 | auto-scaling gives enough workers for one and a half times the target rate, and no more, up to 64 and the number of events, and never fewer than configured unless there are fewer events |
| `LoadTest.NeverTwiceTheTarget` | libs/load_test/runner.py:185-195 | with auto-scaling at most 2 * total - 1 events |
| `EndToEnd.WriterKeyIsSourceIff` | libs/partitioning/partition_key.py:126-133 | the compactor may merge a writer's file if and only if the sanitised id does not start with `compacted-` |
| `EndToEnd.NoLakeEventLost` | libs/partitioning/partition_key.py:109-133 | with the program's own key builder, and writers whose ids need no sanitising, or are the adapters' and sanitising merges no two of their sources or external ids (and none looks like a compacted file): from an empty store, over all writes, compactions, crashes and retries, no event once in a partition disappears |
| `EndToEnd.OneWriteIsSuch` | libs/adapters/protocol.py:227-232 | those conditions can be met: writing any one adapter event is such a run (`IsoFormPossible` shows an admissible time) |
| `EndToEnd.RoutedIsSeparate` | libs/common/kafka_producer.py:105-111 | with the adapters' ids and the producer's message keys, which the broker routes, no object key is shared between Kafka partitions unless sanitising merges two sources or external ids: what `EffectsExactlyOnce` assumes |
| `EndToEnd.RoutedExactlyOnce` | libs/common/kafka_consumer.py:267-344 | from the empty system, over every run of the service on the adapters' events so routed, the Bronze store is the fold of each partition's log up to the committed offset or of one record more, with no assumption about keys |
| `LakeDurability.CommittedStaysInLake` | libs/common/kafka_consumer.py:281-344 | consumer and compactor interleaved in any way, with crashes, ambiguous puts and commits, redelivery, restarts and failing compactions: at every moment every record below a committed offset is well-formed and its event is in its partition directory, for adapter events that sanitising does not merge |
| `EndToEnd.CompactionInvisibleToWarehouse` | warehouse/loader/batch_loader.py:156-180 | for conflict-free rows and without writers, loading the partition at any moment of any number of interrupted compactions gives every event the data it would have had without compaction |

## Left out

- Group rebalancing with several live consumers, `commit_message`, lag sampling, log retention.
- ExactlyOnce.EffectsExactlyOnce: assumes that no object key is shared between partitions; `RoutedExactlyOnce` does without this for the adapters' ids, and two ids with one sanitised form on different partitions would break it.
- The Silver lake-writer and the deprecated batch mode of both writers: the service model takes the key and row functions as parameters, so the same theorems cover the Silver writer.
- `services/processor` as a Kafka consumer: its batch is modelled, its consumer is the same class.
- diagnostic_envelope and the acknowledged dead-letter producer: the sink is modelled as acknowledging or refusing; base64, JSON and uuid5 are library functions.
- Parquet, Polars and PyArrow encoding, float rounding, decimal and timestamp parsing: rows are records, and a price or time is the outcome of its parsing.
- The payload hash is an abstract function of the row; hash collisions, and null prices, are in its choice.
- Scanner.DiscoverFiles: discovered files are keys without the `s3://bucket/` prefix, and `int()` accepts ASCII digits only.
- PartitionKey.SanitizePathSegment: the replacement text is taken literally; backslash escapes of the regular-expression engine are not interpreted.
- Compaction.ParquetCompactor.DiscoverPartitions: `max_source_file_bytes` is never read by the source, and `bytes_freed` is not modelled.
- `compact_all` (a loop over partitions) and two compactors on one partition at a time; `LakeDurability` follows the compactor of one partition.
- CompactionSafety.NoEventDisappears: assumes that the keys of the rows that occur determine their event ids, that the random suffix gives a new key, and that no writer uses a compacted file's name; `NothingLostIff` shows the first to be exact, and `NoLakeEventLost` derives the first and the last from the event ids. An offset from UTC with seconds in it is not modelled in those ids.
- Warehouse.WarehouseLoader.UpsertSourceProducts: the `products` table, product matching and the product id of a new mapping are not modelled, nor the counters of sources and products: inserts there have no visible unique key.
- Row ids of the warehouse are fresh numbers; gaps left by conflicting inserts are not modelled.
- Workflow phases: `prepare` and the git housekeeping of `cleanup` are single commands that may fail; argument parsing, prompts, log files and feedback text are not modelled. Nobody can rewrite a commit or change a merged pull request; a push or a created pull request takes effect when its command runs.
- WorkflowScript.Workflow.Cleanup: the checks on ignored files and on later commits of the local branch, and the deletion of both, are one command that may fail.
- WorkflowDecisions.CleanupNeedsClean: the main checkout, which cleanup looks at, and the task's worktree share one flag for uncommitted changes.
- WorkflowScript.Workflow.Approved: `git status`, the remote checks and `rev-parse` are one command, which reads HEAD once; the report and the diff are commands of their own.
- `scripts/qoder_task_workflow.py`: the same phases with another agent.
- RunLock.MutualExclusion: removing a stale lock is an operator's act; it is assumed to be checked against the recorded process.
- LoadTest: duration limit, rate, monitors and reports.
- HTTP adapters, parsing, API routes, DAGs, logging, tracing, metrics export, agents, SQL builders, quality checks: not modelled.
