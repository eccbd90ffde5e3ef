# A verified model of chunked-wal

chunked-wal is a write-ahead log kept in chunk files. A main thread appends
records to the open chunk and rotates it when it is full; one flush worker
writes the queued bytes, commits groups of writes with one sync, and removes
purged chunks; `open` rebuilds the log and the caller's state after a crash.
No single place in the program states why nothing acknowledged is ever lost. It
follows from the order of the queue, from the rule that a batch ends at the
first request that is not a write, from the sync that precedes every new chunk,
and from what recovery discards. This project models all of these and proves
that they fit together, for every run, every crash and every recovery.

## How it is built

| modules | content |
|---|---|
| `Bytes`, `Codec`, `WalRecords`, `RecordIO`, `StringRecords` | big-endian numbers, the laws asked of a record codec, the record format with its reserved tag and checksum, and a length-prefixed string codec that meets every hypothesis |
| `RecordStream`, `Log`, `Reading` | parsing a file, the log as chained chunks of records, replay, the in-memory index and reads |
| `Recovery`, `Opening` | `open` as a function of the files, and its loops proved to compute that function |
| `Requests`, `Backlog`, `System`, `Invariant` | the step system: main thread, queue, worker, files with an OS length and a durable length, crashes and restarts; and the inductive invariant |
| `MainSteps`, `WorkerSteps`, `CrashImages`, `RecoveredLog`, `Crashes`, `Durability` | every step keeps the invariant; the theorems over whole runs |
| `Conservation`, `Notifications`, `Completion`, `Effects`, `Budget`, `Progress`, `Liveness` | further theorems over whole runs |
| `Reopening`, `PowerLoss`, `Damage`, `Reappearing` | deaths and power losses inside `open`, holes in a log, unlinks that a power loss undoes |
| `Runs`, `Scenarios`, `Races`, `Purging`, `UnsafePurges`, `Orphans`, `FailedRotations` | building runs, and what the code does not do |
| `GroupCommit`, `WorkerBatches` | group commit against a worker that takes one request at a time |
| `VectoredWrites`, `FlushWorkers`, `FlowControl`, `ChunkedWals`, `FileNames` | the program's objects and loops, with their contracts |

The step system interleaves the main thread with single steps of the worker: one
partial write, one sync of one file, one callback, one unlink. A send has two
halves, the reservation of its bytes and the queueing, and a rotation creates its
file in the first and swaps the chunks in the second; the worker may act between
them. It may fail at any step, and then releases every reservation before its end
of the queue is dropped. The release and the report of the failure are one step:
the program makes the release first, but only callers that wait for completion
read the report and only senders read the reserved bytes, so that a caller between
the two sees what it would see before or after both. A `Restart` step is a crash at any point followed by
`open`: of each file at least the durable part survives and at most what was
written, possibly followed by zeros from a record boundary on.
`Sys.hist` is the log as appended, purged chunks included. The theorems compare
the files with it. Steps read it to name the file the worker writes, which the
invariant shows to be the last in the worker's own list, and to name the chunks
a removal is about, which `ChunkedWals.DrainedIds` shows to be those a drain
returns. `Sys.careful` says whether removals wait for the first record of the
oldest remaining chunk to be durable; runs with and without it are covered.

Theorems about logs assume `EnvOk`: the codec is lawful, the checkpoint record
of a state restores that state wherever it is applied, checkpoints can be
encoded, and the chunk limits are positive. `StringRecords.StringEnvOk`
shows that this can be met. The checksum is any function to 64-bit numbers.

Six results are about what the code does not do. Each has its exact condition.

- The worker unlinks purged chunks without syncing first. `Purging.PurgeIsSafeIff`
  gives the condition under which a power loss cannot empty the log, and
  `UnsafePurges.UnsafePurgeHappens` a run after which one power loss does.
- The directory is synced once, after the last unlink of a removal. A power loss
  before that may bring back any of the removed files. By
  `Reappearing.CrashWithUnlinksUndone` the log can then be opened if and only if no
  chunk is missing between the oldest one that came back and the rest;
  `Reappearing.UndoneUnlinkBlocks` builds a directory that cannot.
- A rotation that fails after creating the successor's file leaves that file
  behind. By `Orphans.OrphansAreHarmlessIff` the directory can still be opened if
  and only if every stray file lies after the last chunk with a record;
  `FailedRotations.FailedRotationBlocks` is a run after which it cannot.
- A worker that stops between the two halves of a send has already released the
  sender's bytes, and the sender gives them back again. The program's counter is
  unsigned, so this subtraction underflows. The model is that of arithmetic that
  wraps around; a build with overflow checks panics there instead, with the
  counter's lock held. The log stays open to its caller, and later sends may
  underflow again: `Races.UnderflowsIff` says exactly which do, and
  `Races.BothUnderflow` is a run with one underflow of each kind.
- A request queued after that release, before the queue is dropped, keeps its
  bytes reserved. `Races.CountAlways` says what the counter stands for once the
  worker has stopped, and `Races.WaitsForever` which senders wait for good;
  `Races.StrandingHappens` is a run that gets there.
- The parser of file names is documented to reject names of another format, but
  skips every character that is no digit. `FileNames.AcceptedNames` says exactly what
  it accepts, and by `FileNames.OtherNames` no id has only one name.

`Sys.used` is the balance of bytes reserved and given back, and `Counter` the
unsigned number that stands for it. `Races.CounterIsExact` shows that this is the
64-bit arithmetic of the program as long as no single buffer, and not the limit,
exceeds what an allocation can hold.

## Model

| member | source | states |
|---|---|---|
| `Durability.EveryStateIsOk` | src/wal/flush_worker.rs:177-287 | every state of every run, crashes and recoveries included, satisfies the invariant that ties log, index, queue, worker and files together |
| `Durability.NextKeeps` | src/wal/flush_worker.rs:155-287 | every step keeps the invariant, and every record that was durable stays durable at the same place in the log |
| `Durability.DurableForever` | src/chunk/mod.rs:156-208 | what is durable at one point of a run is durable at every later point, through any number of crashes |
| `Durability.AcknowledgedForever` | src/wal/flush_worker.rs:225-268 | an Ok to a sync request is true and stays true: all records up to its offset are durable and in the log from then on |
| `Durability.CrashAnywhere` | src/wal/chunked_wal.rs:111-180 | opening the image of a crash at any point of any run succeeds, replays a prefix of what was appended and rebuilds the state of that prefix; the prefix holds every record covered by an acknowledged sync, unless a removal ran ahead of durability |
| `Durability.OpenCrashed` | src/wal/chunked_wal.rs:111-180 | the exact state and replayed records that `open` returns for a crash image, in terms of the log |
| `MainSteps.AppendStep` | src/chunk/open_chunk.rs:117-134 | appending extends the log, its index and the pending bytes together and leaves every promise of the queue intact |
| `MainSteps.SendPendingStep` | src/wal/chunked_wal.rs:566-578 | reserving the pending bytes as one write is in order for the worker; with a sync, everything appended will be durable once the requests are done |
| `MainSteps.RotateStep` | src/wal/chunked_wal.rs:671-674 | the new file of a rotation may appear while the worker still has everything before it to do |
| `MainSteps.EnqueueStep` | src/wal/flush_client.rs:60-71 | queueing a reserved request keeps the invariant; queueing a new file swaps the chunks, however many rotations are queued ahead of the worker |
| `MainSteps.SendFailsStep` | src/wal/flush_client.rs:69-77 | a send that nobody receives changes neither log nor files |
| `MainSteps.SendRemoveStep` | src/wal/chunked_wal.rs:589-599 | a removal request of drained chunks is in order when its turn comes, whether or not it waits for durability |
| `MainSteps.DrainStep` | src/wal/chunked_wal.rs:442-461 | draining closed chunks keeps index and log in agreement |
| `Backlog.MergedRuns` | src/wal/flush_worker.rs:206-247 | handling queued writes as one batch is in order whenever handling them one by one is, and leaves at least as much durable |
| `WorkerSteps.TakeWritesStep` | src/wal/flush_worker.rs:289-315 | any legal batch cut keeps the invariant |
| `WorkerSteps.WriteSomeStep` | src/wal/flush_worker.rs:424-451 | any partial write keeps the invariant, so a failure may follow it |
| `WorkerSteps.SyncOlderStep` | src/wal/flush_worker.rs:372-375 | dropping an older file after its sync keeps the invariant |
| `WorkerSteps.SyncLastStep` | src/wal/flush_worker.rs:377-384 | the last sync makes every byte of every live chunk below the batch's end durable, and the notification says so exactly |
| `WorkerSteps.ReplyOneStep` | src/wal/flush_worker.rs:252-268 | each Ok callback of a sync request is truthful |
| `WorkerSteps.UnlinkStep` | src/wal/flush_worker.rs:343-354 | unlinking one requested chunk loses no durable record of the remaining log |
| `WorkerSteps.FinishAppend` | src/wal/flush_worker.rs:322-325 | a successor becomes the file written only when its predecessor is complete and durable |
| `WorkerSteps.StopStep` | src/wal/flush_worker.rs:155-175 | a worker that stops or fails at any step leaves files that satisfy the invariant |
| `Conservation.RotationInvariant` | src/wal/chunked_wal.rs:657-690 | a chunk file holds a byte only if every older chunk on disk is written and durable to its end, and its predecessor ends exactly at its id |
| `Conservation.ConservationAlways` | src/wal/flush_worker.rs:206-285 | for each chunk, bytes in the file, bytes queued for it and pending bytes are together exactly its records, in order |
| `Conservation.FilesArePrefix` | src/wal/flush_worker.rs:244-270 | in every state, also after a failure, the files one after the other are a prefix of the bytes appended |
| `Conservation.FrozenAfterStop` | src/wal/flush_worker.rs:155-175 | after the worker has stopped no existing file changes and no reply is made until the log is opened again |
| `Notifications.NotesAlways` | src/wal/flush_worker.rs:375-381 | notifications never decrease, each is a durable record end of the chunk it names, and each carries the checkpoint that closed the chunk before |
| `Notifications.NoteIsExact` | src/wal/flush_worker.rs:376-381 | a notification gives the start of the chunk being written and exactly its durable end |
| `Notifications.AttachedAfterNote` | src/wal/chunked_wal.rs:657-683 | a successor is attached only after its predecessor was announced at its full end, which is the successor's start |
| `Completion.SeqsAlways` | src/wal/flush_client.rs:43-78 | requests are numbered without gaps in queue order, and the number done never decreases between crashes |
| `Effects.DoneMeansSucceeded` | src/wal/flush_worker.rs:76-80 | once number n is done, the request with that number has succeeded: its data is in the files, durable if it asked for a sync, its callback got Ok, its file is attached, its chunks are gone |
| `Completion.StoppedWorkerWakesWaiters` | src/wal/flush_worker.rs:155-175 | once the worker has stopped, for whatever reason, waiting for the requests sent ends |
| `Completion.ShutdownIsDurable` | src/wal/chunked_wal.rs:536-553 | if a shutdown's sync was accepted and its wait returns Ok, every record ever appended is in the files and durable |
| `Budget.BudgetAlways` | src/wal/queued_bytes.rs:29-44 | while the worker runs, reserved bytes are exactly those of the unreleased requests, and they exceed the limit only when one request holds them all |
| `Budget.BlockedHasHolder` | src/wal/queued_bytes.rs:29-37 | a sender that waits for room leaves the worker a request to finish |
| `Progress.WorkerNeverStuck` | src/wal/flush_worker.rs:177-287 | a running worker with anything to do can take a step that is not a failure: releases never underflow and files to unlink exist |
| `Progress.WorkIsBounded` | src/wal/flush_worker.rs:177-287 | without new requests the worker takes only boundedly many steps |
| `Liveness.WorkCanFinish` | src/wal/flush_worker.rs:177-287 | from every reachable state with a running worker, worker steps alone can finish every request without a failure |
| `Liveness.SyncCanBeAnswered` | src/wal/chunked_wal.rs:566-578 | from every idle reachable state a sync can be sent and is then answered with Ok, at the end of the open chunk |
| `Progress.DoneAdmitsAny` | src/wal/queued_bytes.rs:29-37 | when the worker has nothing left, any waiting sender is let through |
| `Log.CheckpointSufficiency` | src/wal/chunked_wal.rs:130-171 | replaying the chunks that survive a purge, from any starting state, gives the state of the full history |
| `Durability.SurvivorsSuffice` | src/wal/chunked_wal.rs:442-461 | in every state the chunks not yet purged rebuild the current state, from any starting state |
| `Log.WithChunkValid` | src/wal/chunked_wal.rs:668-687 | a rotation keeps the log valid and its state unchanged |
| `Log.CutIsPrefix` | src/chunk/mod.rs:156-208 | cutting a log loses records only at its end |
| `RecordStream.ParseUndoesAppend` | src/chunk/record_iterator.rs:40-70 | iterating the encodings of any records yields exactly those records, at the prefix sums of their sizes |
| `RecordStream.ParseCut` | src/chunk/record_iterator.rs:40-70 | for any cut of a log's bytes the iteration yields exactly the records contained whole, then runs out of bytes unless the cut is on a boundary |
| `RecordStream.ParseHoldsPrefix` | src/chunk/mod.rs:166-198 | the same for a torn or zero-filled tail |
| `RecordStream.LayoutAt` | src/chunk/mod.rs:113-118 | segments sit at the prefix sums of the record sizes |
| `RecordStream.OffsetReader.Read` | src/offset_reader.rs:19-23 | the offset is the number of bytes taken from the file |
| `RecordStream.RecordIterator.Next` | src/chunk/record_iterator.rs:40-70 | each call yields the next record of the parse with its segment, and nothing more after an error |
| `Reading.IndexIsChain` | src/wal/chunked_wal.rs:495-505 | in every state the index is one contiguous chain of strictly increasing offsets, and the reported size is the sum of its chunks' sizes |
| `Reading.FullMeans` | src/wal/chunked_wal.rs:625-629 | in every state a chunk is full exactly by the records or bytes the log holds in it |
| `Reading.ReadsWhatWasAppended` | src/wal/chunked_wal.rs:712-733 | with an idle worker, reading segment k of any closed chunk returns the k-th record appended to it |
| `Reading.ReadBack` | src/chunk/mod.rs:369-382 | reading a segment of a complete file decodes the record appended there |
| `Reading.OffsetsIncrease` | src/chunk/mod.rs:68-134 | record offsets start at the chunk's id, increase strictly and end at its end |
| `CrashImages.RemoveTailsOfImage` | src/wal/chunked_wal.rs:292-316 | removing incomplete tails of a crash image drops no whole record and leaves exactly the live chunks |
| `CrashImages.ListedChunks` | src/wal/chunked_wal.rs:378-413 | a listing of the directory is the live chunks in order, then files that hold nothing |
| `CrashImages.InitialRecord` | src/wal/chunked_wal.rs:318-360 | on a crash image the first-record check never fails and tells whether a whole record survived |
| `RecoveredLog.OpenPrefix` | src/chunk/mod.rs:156-208 | a file with a prefix of a chunk opens clean or is cut back to its whole records, or fails when it may not be cut |
| `RecoveredLog.OpenWithRecord` | src/wal/chunked_wal.rs:122-171 | the result of opening an image whose last chunk has a record: contiguous, no gap, no id collision; it fails only on a torn tail that may not be cut |
| `RecoveredLog.OpenWithoutRecord` | src/wal/chunked_wal.rs:362-376 | without a record in the last chunk its predecessor is reopened in full |
| `RecoveredLog.OpenWithNothing` | src/chunk/open_chunk.rs:77-89 | without any record a log starts at offset 0 with a checkpoint |
| `Damage.MissingRecordsAreReported` | src/wal/chunked_wal.rs:267-286 | if a chunk before the last has lost its end, torn, zeroed or cut at a boundary, `open` fails rather than replay past the hole |
| `Damage.DamagedRecordIsReported` | src/chunk/mod.rs:245-265 | bytes at the end of the last chunk that are neither a record, nor the start of one, nor zero make `open` fail, also when it may truncate, and also when no whole record comes before them |
| `Reopening.InterruptedRecovers` | src/wal/chunked_wal.rs:292-316 | `open` may die before or after each removal, after the truncation, or anywhere in the creation of the new chunk: the directory still recovers to the same state and records |
| `Reopening.OpenRecovers` | src/wal/chunked_wal.rs:111-180 | opening a directory gives the state it recovers to |
| `Reopening.RecoveryIsRestartable` | src/chunk/open_chunk.rs:77-89 | after a crash of any run and any number of further process deaths inside `open`, a completed `open` gives what the first one would have given |
| `PowerLoss.AcknowledgedSurviveOpening` | src/wal/chunked_wal.rs:111-180 | after a crash of any run and any number of deaths and power losses inside `open`, zero-filled tails included, a completed `open` succeeds; it has every acknowledged record, its records are a prefix of those appended apart from checkpoints `open` wrote, the state is that of the prefix, and the records of the chunks on disk are replayed |
| `PowerLoss.RepairReplays` | src/chunk/open_chunk.rs:77-89 | the checkpoints that `open` adds change nothing: such a log has the state of the prefix it holds |
| `Reappearing.ReappearingIsHarmlessIff` | src/wal/flush_worker.rs:343-354 | for every image and every set of removed chunks that come back, `open` succeeds if and only if none is missing between the oldest of them and the rest, and the state and the open chunk are then unchanged |
| `Reappearing.CrashWithUnlinksUndone` | src/wal/flush_worker.rs:343-354 | the same for a power loss at any point of any run |
| `Reappearing.UndoneUnlinkBlocks` | src/wal/chunked_wal.rs:267-286 | once two chunks are removed there is a loss that brings back only the older one, and `open` then fails |
| `Reopening.ReopenChangesNothing` | src/chunk/mod.rs:191-198 | a complete directory is reopened without truncating, removing or creating a file, with the same index and state |
| `Purging.LossIsImage` | src/chunk/mod.rs:245-252 | the crashes considered: in every state with its files in order, the file being written may lose any part that is not durable, and from a record boundary on may hold zeros instead |
| `Purging.PurgeIsSafeIff` | src/wal/flush_worker.rs:343-354 | after a purge, every power loss leaves something to replay if and only if the first record of the oldest remaining chunk is durable |
| `Purging.UnsafeWhenNot` | src/wal/flush_worker.rs:343-354 | otherwise there is a crash after which nothing is left to replay |
| `UnsafePurges.UnsafePurgeHappens` | src/wal/flush_worker.rs:343-354 | from every idle reachable state with a full chunk, a rotation and a purge that waits for no sync lead to such a state |
| `Scenarios.FullHappens` | src/wal/chunked_wal.rs:625-629 | for every codec with an encodable record there is a run to an idle log with a full chunk |
| `Orphans.OrphansAreHarmlessIff` | src/chunk/open_chunk.rs:91-109 | for every crash image and every set of stray empty files, `open` succeeds if and only if all of them lie after the last chunk with a record, and then gives what it gives without them |
| `FailedRotations.StrayRunIsRun` | src/wal/chunked_wal.rs:671-674 | rotations that fail after creating their file, and every `open` that gets past the files they left, leave a log whose states are those of a run without them |
| `FailedRotations.CrashWithStrays` | src/wal/chunked_wal.rs:111-180 | after a crash at any point of a run with failed rotations, the exact condition under which `open` succeeds, and that it then gives what it gives without stray files |
| `FailedRotations.FailedRotationBlocks` | src/wal/chunked_wal.rs:671-683 | from every idle reachable state with a full chunk: a rotation that fails after creating its file, one more record and a rotation that succeeds leave a complete log that `open` refuses |
| `GroupCommit.BatchRefines` | src/wal/flush_worker.rs:206-268 | a batch gives the same files and replies as its writes one by one, and at least the same durability |
| `GroupCommit.GroupCommitRefines` | src/wal/flush_worker.rs:177-315 | for every legal cut of a queue into batches, the same file contents and callback order as one request at a time, and at least as many durable bytes |
| `WorkerBatches.SegmentIsGroups` | src/wal/flush_worker.rs:177-287 | between any two states of a run without failure or crash, whatever the main thread appends, sends and rotates meanwhile, the worker's single steps are group commit on the requests taken |
| `WorkerBatches.WorkerIsGroupCommit` | src/wal/flush_worker.rs:177-287 | from idle to idle, with the main thread active, the worker's files and replies refine those of the one-at-a-time worker on the same requests |
| `WalRecords.RecordCodecIsLawful` | src/wal/wal_record.rs:68-149 | records are decoded back whatever follows and consume exactly the returned size, strict prefixes run out of bytes, zeros are no record |
| `WalRecords.TagsAreDisjoint` | src/wal/wal_record.rs:70-88 | the reserved tag keeps actions and checkpoints apart, and an action that claims it is rejected |
| `WalRecords.EncodedRecords` | src/wal/wal_record.rs:68-103 | exactly which records are encoded, and the bytes of a checkpoint: reserved tag, payload, checksum of both |
| `WalRecords.ChecksumGuardsCheckpoint` | src/wal/wal_record.rs:143-147 | a checkpoint is accepted exactly when its trailer is the checksum of its tag and payload |
| `WalRecords.UnreadableRecords` | src/wal/wal_record.rs:114-149 | exactly when decoding runs out of bytes and when it finds bad bytes, for both kinds of record |
| `Bytes.DigitAt` | src/wal/wal_record.rs:93 | numbers are stored with the most significant byte first |
| `Bytes.BytesRoundTrip` | src/wal/wal_record.rs:118 | reading a number from bytes and writing it again gives the same bytes |
| `RecordIO.EncodeRecord` | src/wal/wal_record.rs:68-103 | the writer receives exactly the encoding, or the partial output of a rejected record |
| `RecordIO.DecodeRecord` | src/wal/wal_record.rs:114-149 | the reader moves by exactly the bytes the record used |
| `StringRecords.StringPartsOk` | tests/common/mod.rs:28-52 | length-prefixed strings satisfy the hypotheses of the record format |
| `StringRecords.StringEnvOk` | tests/common/mod.rs:69-95 | the hypotheses of the theorems about logs can be met |
| `VectoredWrites.AdvanceSlices` | src/wal/flush_worker.rs:446-447 | advancing drops exactly the bytes written and leaves no empty slice |
| `VectoredWrites.WriteAllVectored` | src/wal/flush_worker.rs:424-451 | for every schedule of short writes, interruptions and failures the file grows by a prefix of the slices, and by all of them exactly on success and exactly when the schedule delivers them; every call that moves bytes makes progress |
| `VectoredWrites.WriteBatchVectored` | src/wal/flush_worker.rs:400-422 | across the groups of 1024 slices, success means the file grew by exactly the data of all requests in order, an error by a prefix of it; it succeeds exactly when the schedule delivers every group |
| `VectoredWrites.EnoughForGroups` | src/wal/flush_worker.rs:400-422 | a schedule without failures that moves bytes often enough delivers every group |
| `FileNames.FormatGrouped` | src/num.rs:5-15 | the digits of the padded number, with a separator in every fourth place from the end and nowhere else |
| `FileNames.GroupsOfThree` | src/num.rs:5-15 | a number of n digits gets (n - 1) / 3 separators, counted from its last digit |
| `FileNames.NameShape` | src/config.rs:194-197 | for every 64-bit id: `r-`, then 20 digits and 6 separators in every fourth place from the end, whose digits are those of the id, then `.wal` |
| `FileNames.NameRoundTrip` | src/config.rs:194-242 | every 64-bit id is parsed back from its file name |
| `FileNames.AcceptedNames` | src/config.rs:208-242 | exactly which names are read as an id, and as which |
| `FileNames.LengthInBytes` | src/config.rs:222-227 | the 26 are bytes: of 26 characters they are the length exactly when all are ASCII |
| `FileNames.OtherNames` | src/config.rs:218-242 | every id has a further name that is read as it |
| `FileNames.NamesSort` | src/config.rs:194-197 | file names sort exactly as their ids |
| `Opening.VerifyTrailingZeros` | src/chunk/mod.rs:276-329 | whatever the sizes of the reads, the scan decides whether the rest of the file is zero |
| `Opening.HasCompleteInitialRecord` | src/wal/chunked_wal.rs:318-360 | computes the first-record check of the recovery function |
| `Opening.HandleRecordError` | src/chunk/mod.rs:214-266 | truncation happens exactly when it is allowed and the tail is torn or zero |
| `Opening.OpenChunkFile` | src/chunk/mod.rs:156-208 | the loop over the iterator computes the records, the offsets and the truncation of the recovery function |
| `Opening.Directory.RemoveIncompleteTailChunks` | src/wal/chunked_wal.rs:292-316 | computes tail removal; in every case the files that are gone are the last ones listed, each without a first record, and it stops at the first chunk that has one, is missing or is damaged |
| `Opening.Directory.LoadChunk` | src/wal/chunked_wal.rs:130-160 | contiguity check, load and replay of one chunk; a chunk without a record is a panic; at most a tail without a record is cut off, and a failure leaves every file as it was unless it is the panic on a file that may be cut to nothing |
| `Opening.Directory.LoadAll` | src/wal/chunked_wal.rs:130-160 | the loop over all chunks, where only the last may be truncated; a failure leaves every file as it was |
| `Opening.Directory.OpenLast` | src/wal/chunked_wal.rs:362-376 | reopens the last chunk or creates one after it; no existing file is replaced, and a failure adds at most an empty file |
| `Opening.Directory.OpenLocked` | src/wal/chunked_wal.rs:111-180 | returns the recovery function of the files; whether it succeeds or fails, the files gone are trailing ones without a first record, all others are byte for byte the old ones up to the tail that may be cut, and at most one file is new; a damaged first record in the last chunk is reported and changes nothing |
| `FlowControl.QueuedBytes.Acquire` | src/wal/queued_bytes.rs:29-37 | whatever is given back meanwhile, a request is admitted as soon as the sum, wrapped around, is under the limit or nothing is reserved, and what is reserved is accounted for |
| `FlowControl.AcquireIsExact` | src/wal/queued_bytes.rs:29-37 | as long as no more is given back than was reserved nothing wraps around, and admission is exactly by the limit or alone |
| `FlowControl.QueuedBytes.Release` | src/wal/queued_bytes.rs:40-44 | the subtraction is exact up to what is reserved and wraps around beyond it |
| `FlowControl.DoneReaches` | src/wal/flush_worker.rs:76-80 | a number is reached exactly when it was before or one at least as high was completed |
| `FlowControl.WorkerState.WaitFor` | src/wal/flush_worker.rs:88-98 | returns exactly when the target is reached, fails exactly when the worker failed short of it, waits only while no completion seen is as high and no failure was seen, and stops waiting at the first that is |
| `FlowControl.FlushClient.Reserve` | src/wal/flush_client.rs:43-58 | a request is refused after shutdown, and otherwise reserved only under the limit or alone |
| `FlowControl.FlushClient.Enqueue` | src/wal/flush_client.rs:60-78 | the request gets the next number and is queued, or its bytes are given back from whatever is reserved by then |
| `Races.CountAlways` | src/wal/queued_bytes.rs:29-50 | in every state with a stopped worker, the balance is the bytes queued since the stop and those of a send under way, less those given back twice |
| `Races.CounterIsExact` | src/wal/queued_bytes.rs:32-42 | in every state the model's counter and its admission of a request are those of 64-bit arithmetic that wraps around |
| `Races.UnderflowsIff` | src/wal/flush_client.rs:69-77 | the release of a failed send underflows if and only if the request carries data and either the worker stopped after the reservation or an earlier underflow left the counter short by no more than the request; and what the counter is then |
| `Races.UnderflowHappens` | src/wal/flush_worker.rs:155-175 | from every state that can send pending bytes there is a run in which that happens |
| `Races.UnderflowsAgain` | src/wal/flush_client.rs:69-77 | after it, a caller that appends as much again and sends is let through, and its release underflows too |
| `Races.BothUnderflow` | src/wal/flush_client.rs:69-77 | a new log and one record, appended twice, reach both |
| `Races.PendingHappens` | src/wal/chunked_wal.rs:750-753 | a new log with one record appended is such a state |
| `Races.WaitsForever` | src/wal/queued_bytes.rs:29-37 | with the worker gone the balance is what was queued since less what was given back twice; a request that does not fit then never will, and with the receiver gone the balance stays and one that fits always will |
| `Races.StrandingHappens` | src/wal/flush_worker.rs:159-175 | bytes queued after the worker's release, before the queue is dropped, stay reserved |
| `FlushWorkers.WriteBatch.PushSeqRequest` | src/wal/write_batch.rs:34-53 | a write joins the batch with its number, any other request ends it |
| `FlushWorkers.CollectBatch` | src/wal/flush_worker.rs:289-315 | a batch is a non-empty prefix of the queue, within its size limit, that stops at the first request that is not a write, and earlier only when it is full, the queue is empty or the time is over |
| `FlushWorkers.FlushWorker.SyncDataFiles` | src/wal/flush_worker.rs:360-384 | it succeeds exactly when the sync of every listed file does; then every listed file is synced, only the last stays listed, and one notification was made; a failure loses nothing durable |
| `FlushWorkers.FlushWorker.HandleNonFlushRequest` | src/wal/flush_worker.rs:317-358 | attaches or removes; removal succeeds exactly when every id has its own file and the directory is synced, and otherwise stops at the first id without a file |
| `FlushWorkers.FlushWorker.WriteBatchData` | src/wal/flush_worker.rs:219-224 | the data of the batch goes to the last file, at worst a prefix of it; it succeeds exactly when the schedule delivers the data |
| `FlushWorkers.FlushWorker.SendReplies` | src/wal/flush_worker.rs:252-268 | every callback is answered, in order, with the result of the batch |
| `FlushWorkers.FlushWorker.HandleBatch` | src/wal/flush_worker.rs:206-270 | success is exactly the batch step of group commit, and comes exactly when the writes and, if asked for, the syncs go well; a failure answers every callback with an error, and only the last file may have grown, by a prefix of the data |
| `FlushWorkers.FlushWorker.HandleOneBatch` | src/wal/flush_worker.rs:177-285 | one turn of the loop is the group step of the batch taken, and completes its last number; it fails only if a write, a needed sync or a removal does, and then leaves part of the batch's data and only errors, or some of the chunks to remove |
| `FlushWorkers.FlushWorker.RunInner` | src/wal/flush_worker.rs:177-287 | when the loop has drained the queue, whatever arrived meanwhile, every request is done and files, replies and notifications are those of group commit, which refines the one-at-a-time worker; when it stops with an error it has handled some batches like this, one turn failed, and nothing behind it was touched or reported done; in a healthy system it does not stop with an error |
| `ChunkedWals.OpenChunk.AppendRecord` | src/chunk/open_chunk.rs:117-134 | a record extends buffer and index together; a rejected one leaves both unchanged |
| `ChunkedWals.AppendBuffers` | src/chunk/open_chunk.rs:117-134 | after an append, buffer and index stand for the chunk with one record more |
| `ChunkedWals.TakeBuffers` | src/chunk/open_chunk.rs:33-37 | what is handed over is exactly the part of the chunk not handed over before |
| `ChunkedWals.ChunkedWal.SendRequest` | src/wal/chunked_wal.rs:515-517 | one numbered request joins the queue, or none when the worker is gone |
| `ChunkedWals.ChunkedWal.Append` | src/wal/chunked_wal.rs:750-753 | the step system's append on the object's fields |
| `ChunkedWals.ChunkedWal.SendPending` | src/wal/chunked_wal.rs:566-578 | sends exactly the pending bytes with the chunk's end as offset, and empties the buffer even when the send fails |
| `ChunkedWals.ChunkedWal.IsOpenChunkFull` | src/wal/chunked_wal.rs:625-629 | full by records or by size |
| `ChunkedWals.ChunkedWal.CreateFile` | src/chunk/open_chunk.rs:91-109 | no existing file is taken for a new chunk, and a creation that fails may leave its file |
| `ChunkedWals.ChunkedWal.TryCloseFullChunk` | src/wal/chunked_wal.rs:646-697 | when it rotates; for every failure exactly which of its requests joined the queue, the numbers spent, whether the new file is in the directory, and what is left of the log; the pending bytes are lost only when their own sync could not be sent |
| `ChunkedWals.ChunkedWal.StartChunk` | src/wal/chunked_wal.rs:672-696 | attaching, swapping and opening the new chunk; after a failure exactly the requests before it have joined the queue, and the old chunk is kept only on success |
| `ChunkedWals.ClosingIsThreeSends` | src/wal/chunked_wal.rs:646-697 | a successful rotation is a sync, a rotation and a send of the step system, each reserved and then queued |
| `ChunkedWals.ChunkedWal.DrainClosedChunksWhile` | src/wal/chunked_wal.rs:442-461 | removes the longest prefix of closed chunks whose checkpoints qualify, and returns their ids in order |
| `ChunkedWals.DrainedIds` | src/wal/chunked_wal.rs:442-461 | in every state the ids a drain returns are those of the oldest chunks of the log not drained before |
| `ChunkedWals.ChunkedWal.SendRemoveChunks` | src/wal/chunked_wal.rs:589-599 | one removal request joins the queue |
| `ChunkedWals.ChunkedWal.Shutdown` | src/wal/chunked_wal.rs:536-553 | the first call sends a sync of everything pending, or nothing if it is not accepted, and succeeds exactly when it was, the worker joined and everything is done; later calls return Ok whatever the first returned |
| `ChunkedWals.ChunkedWal.DiskSize` | src/wal/chunked_wal.rs:495-505 | the size reported is the sum of the sizes of the chunks in memory |

## Left out

- Metrics, histograms, log messages, error texts, `Debug` and `Display`: they do not affect the log.
- Real time, the batch deadline and the capacity of the request channel: where a batch ends is arbitrary.
- The directory lock, configuration defaults and validation: one process owns the directory.
- Reading the directory: `open` is given the sorted ids of the files; names are covered by `FileNames`.
- Request `GetFlushStat`, inode numbers and `sync_id`, and the dump helpers: they only report.
- Overflow of 64-bit offsets and sequence numbers; offsets are unbounded. The byte counter does wrap around, in `Fits`, `DoesSendFail` and `FlowControl`.
- UTF-8 validity of decoded strings: payloads are byte strings.
- Errors returned by the state machine's `apply`.
- A record torn in its middle and then filled with zeros, and any other damage: `open` may report an error there.
- Notifications made during recovery, which no sync precedes; `Notifications` covers those of the worker.
- A rotation whose checkpoint the encoder rejects is not a step of `System`; `ChunkedWals.ChunkedWal.TryCloseFullChunk` says what it leaves behind.
- Unlinks that a power loss undoes are not steps of `System`; `Reappearing` describes the directories they leave, for removals by the worker, and `PowerLoss` leaves out files without a record that `open` itself removed.
- Concurrency inside `FlowControl`, `FlushWorkers` and `ChunkedWals`: these objects are sequential, with the other side's actions as parameters; interleavings are the subject of `System`.
- ChunkedWals.ChunkedWal.DrainClosedChunksWhile: the sorted map of closed chunks is a sequence in id order.
- MainSteps.SendRemoveStep: a removal is of drained chunks, oldest first; removing other ids is not a step of `System`.
- Opening.Directory.LoadChunk: the panic on a chunk without a record is an error value.
- Errors of the file system inside `open`, in reading, truncating, removing or syncing; `Interrupted` covers where they can stop it.
- FlushWorkers.FlushWorker.RunInner: a panic of a callback is a failure of the step it occurs in, which only `System` models.
- Budget.BudgetAlways: nothing is claimed about the reserved bytes once the worker has stopped; `Races.CountAlways` says what becomes of them.
