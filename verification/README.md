# Verification of the traffic aggregator

A Dafny model of the service that reads NetFlow files per NAS, counts the traffic of
online sessions and bills it as chunk rows, with proofs of what it is built to keep:
no flow file is billed twice and none is lost, across failures, panics and restarts.

`dafny verify dfyconfig.toml` checks everything.

## How it is laid out

- `Text`, `Address`, `FlowLine`: strings, decimal numbers, addresses and what one line of a flow file says.
- `Traffic`: the traffic of a batch of lines as a declarative sum, and its laws. `Sums` holds sums over sets.
- `Cells`, `Accumulator`, `Sift`: the mutable accumulator and the join with the sessions, as classes and
  methods over the heap, proved to compute that sum.
- `Billing`: the protocol of one nas as a transition system with one event per I/O action. `BillingSafety`
  holds its inductive invariant, `BillingHistory` the theorems about whole histories, `BillingRecovery`
  what happens after failures, `BillingOutcome` what becomes of the files in a run that goes well.
- `Owed`: what a batch owes from end to end, from the text of its lines and the rows of the channel table to
  the chunk rows, with the channel ids written out. The lemmas called `...Exactly` next to a definition say
  in the words of the source what it amounts to, without the definition.
- `Database`, `Host`, `Storage`, `Aggregator`: the code of one run, step by step, as methods. Every I/O
  action may fail, each failure of the outside world is counted, and before each action
  `Host.NasHost.Interfere` lets files arrive and other nas commit. The methods keep a ghost record of
  protocol events and prove that the record is always a legal run of `Billing`, that files, checkpoint and
  the chunk rows of the nas are exactly what the record says, and that a run fails only if an action or a
  statement failed, or something was in its way that no action gets past.
  The other nas are relied on to change their own rows only, and are given the same: a file action cannot
  touch the tables at all, the save and the clearing state both tables exactly, in the terms in which
  `World.StepTables` states what an event does to them, and a whole run keeps `Host.NasHost.OthersKept`: the
  rows of other nas are what these have left in the tables. So every theorem about the protocol holds of the
  code. The chunk table is kept by the nas whose run inserted a row; that is bookkeeping of the model,
  not a column.
- `World`: all nas over the two shared tables, and serializability.
- `Loaders`, `Cycle`, `CycleSafety`, `CycleHistory`, `CycleProgress`: the service as a whole (cron, the two
  loaders, dispatch, the worker pool, its goroutines, cancellation, panics, kills and restarts) as a
  transition system with one action per step of a goroutine.
- `FlowGen`: the generator of flow files and the round trip through the accumulator.

## Assumptions

- An arriving file is new, and its name is used neither in the nas directory, nor in its tmp, nor in its
  rows of flow_batch. Rename overwrites (src/internal/repository/storage/flow.go:75-80) and the checkpoint
  can outlive the files (src/internal/usecase/aggregator.go:538-548), so the code needs this. A regular
  file may be called `tmp`, as long as there is no directory of that name.
- Rename and commit are atomic. A commit that returns an error may or may not have taken effect; which one
  is settled when it returns.
- Stops are process crashes: what was written stays written.
- One instance of the service works on the directories and tables.
- The theorems that speak of one row per session and channel, or of the total billed to a session, take
  sessions with distinct ids or distinct addresses, as the keys of online_session guarantee
  (docker/migrate/20240903131514_db_init.up.sql:7-8). The rest does not need it.
- The IPv6 half of the address parser and the internal-network lookup are parameters; the lookup may fail.

## Where code and documentation differ

The model follows the code.

- README.md:67-70 keeps files that are still being written apart by their `tmp-` name. The code takes any
  name with `ft-` anywhere in it (src/internal/usecase/flow.go:45). `Billing.UnfinishedNameTaken`: a file
  named tmp-n is kept apart iff n has no `ft-` in it.
- README.md:108-111 says that the repeated cleaning waits until the directory has a file; so does the
  code (`BillingRecovery.EmptyDirDefers`).
- README.md:160-162 allows pool size plus two connections. At most max(2, slots) transactions are ever open
  at once (`CycleHistory.TxBound`), because the loaders end before the first worker starts.
- A line the scanner cannot hold (64 KiB) in a file that is still to be billed ends every run of that nas:
  until somebody removes the file nothing of that nas is billed or deleted any more
  (`BillingRecovery.OverlongLineBlocks`, with an input in `BillingRecovery.LongFileBlocks`). The
  documentation does not mention it.
- A regular file called `tmp` in the nas directory does the same: making tmp takes it for the directory
  (src/internal/repository/storage/flow.go:67-81), and every rename into it and every listing of it fails
  (`BillingRecovery.TmpNameBlocks`, with an input in `BillingRecovery.TmpNameExample`). The documentation
  does not mention it either. `BillingRecovery.RecoveryExactly` says for every state when a run can go well.
- A batch of recorded traffic is swept without a row when every channel is disabled
  (`BillingOutcome.NothingOwedExactly`): src/internal/usecase/traffic.go:250-280 then yields no chunk, which
  the run takes for no data.
- Every malformed line is skipped, and a batch counts as recognised as soon as one of its lines could be
  classified. What is kept for the next cycle is a batch none of whose lines can be classified
  (`BillingRecovery.BatchKept`); a file nobody can read is swept with the others of its batch
  (`FlowGen.UnreadableFileSwept`).

## Model

| member | source | states |
|---|---|---|
| `BillingHistory.AtMostOnce` | src/internal/usecase/aggregator.go:279-398 | In every history from an initial state, with any arrivals, failures, partial deletions, ambiguous commits, panics, crashes and restarts, no two committed transactions share a file, no file is twice in one, every billed file has the content it arrived with, and every transaction inserted exactly the rows its files owe |
| `BillingHistory.NoSilentLoss` | src/internal/usecase/aggregator.go:307-377 | Each file that ever arrived, contents included, is in exactly one of: nas directory, tmp unbilled, tmp billed, deleted after being billed, deleted by the sweep of the recorded batch it was in, which was recognised and owed no rows |
| `BillingHistory.DeletionIsJustified` | src/internal/usecase/aggregator.go:318-377 | In every history, a file about to be deleted is covered and was billed, or it is in the batch its run has just read and that batch was recognised and owed no rows; so no unrecognised batch and no failed stream leads to a deletion |
| `BillingHistory.VerdictIsExact` | src/internal/usecase/aggregator.go:316-377 | The batch a verdict is passed on is exactly the files in tmp that the checkpoint does not cover, as they arrived; if there are none the sweep follows, if none of their lines is classified the run ends there |
| `BillingHistory.CommitIsExact` | src/internal/usecase/aggregator.go:295-390 | A transaction about to be committed holds the rows owed by all the lines of exactly the files in tmp that the checkpoint does not cover, each as it arrived, each once and each read to its end; the commit makes the checkpoint cover all of tmp |
| `Owed.CommitByText` | src/internal/usecase/aggregator.go:295-390 | In every history a transaction about to be committed has, for each session of its job and each channel whose flag is true, the row with what all the lines of the uncovered files of tmp say, every file as it arrived and taken once, and no other row: on channel 1 the bytes exchanged with the inside of the network, on channel 2 those exchanged with the outside, download as the source and upload as the destination |
| `Owed.RowOwedByText` | src/internal/usecase/traffic.go:66-158 | The same for any lines: which rows they owe, stated over their text |
| `Owed.VerdictByText` | src/internal/usecase/aggregator.go:341-377 | A batch is kept iff none of its lines is a record both ends of which can be looked up; it is swept without a row iff some line is, but none with an end inside, or no channel has a true flag |
| `Owed.RowOwedByTable` | src/internal/usecase/channel.go:31-51 | With the map loaded from the channel table, a session is owed a row on a channel iff the last row of the table with that id says enabled |
| `Owed.ChannelSums` | src/internal/usecase/traffic.go:118-158 | All rows with channel id 1, and all with 2, carry exactly the bytes of the records between addresses inside, and of those with one end outside, whose inner ends have a session; per direction |
| `BillingHistory.HistoryGrows` | src/internal/usecase/aggregator.go:492-549 | No later event takes back a commit, an arrival or the reason for a deletion |
| `BillingHistory.LedgerTotal` | src/internal/usecase/aggregator.go:385-390 | In every history: while a session stays online and a channel enabled, all rows ever inserted for them sum to the traffic of all lines of all billed files, every file as it arrived and taken once |
| `BillingHistory.RunKeeps` | src/internal/usecase/aggregator.go:279-398 | The invariant survives every sequence of events |
| `BillingSafety.StepKeeps` | src/internal/usecase/aggregator.go:279-549 | Every single event of the protocol keeps the invariant: a file in tmp is billed iff the checkpoint has its name, no file is in two places, every ledger entry is right, every deletion has a valid reason |
| `BillingSafety.SavedKeeps` | src/internal/usecase/aggregator.go:487-522 | The transaction that saves rows and the whole list of names in tmp bills the uncovered files of tmp, none of them billed before, and keeps the invariant |
| `BillingSafety.UnlinkKeeps` | src/internal/repository/storage/flow.go:150-153 | Deleting any single file during a sweep keeps the invariant, so a deletion that stops half way does |
| `BillingSafety.ClearStepKeeps` | src/internal/usecase/aggregator.go:527-549 | Removing the checkpoint, or failing to in either way, is harmless because tmp is empty by then |
| `BillingSafety.RenameKeeps` | src/internal/repository/storage/flow.go:67-81 | A rename into tmp loses and overwrites no file |
| `BillingSafety.DecideKeeps` | src/internal/usecase/aggregator.go:316-377 | Whatever the verdict on the batch, a sweep is entered only if every file in tmp is committed or belongs to a recognised batch that owes nothing |
| `BillingSafety.InitInv` | src/internal/usecase/aggregator.go:279-292 | Initial states satisfy the invariant |
| `Billing.UnfinishedNameTaken` | src/internal/usecase/flow.go:43-46 | A file named tmp-n is moved iff n contains ft-; tmp-ft-1 is a concrete name that is moved although it does not start with ft- |
| `Billing.FlowNameExactly` | src/internal/usecase/flow.go:43-46 | A name is that of a flow file iff it has the characters f, t and - in a row somewhere |
| `Billing.AllLinesExactly` | src/internal/repository/storage/flow.go:100-147 | The lines of a batch are those of each of its files in full, one file after another |
| `BillingRecovery.RunEndsClean` | src/internal/usecase/aggregator.go:527-549 | From any state of any history: a run begun in a directory with a file, tmp there or to be made, with no fault until its end, leaves tmp and the checkpoint empty, unless nothing new in tmp can be classified |
| `BillingRecovery.Recovery` | src/internal/usecase/aggregator.go:279-398 | Such a run exists from every such state in which the scanner gets through the files and no file is called tmp, and it ends |
| `BillingRecovery.StepCloser` | src/internal/usecase/aggregator.go:279-398 | Every action of a run, failed or not, lowers a lexicographic measure |
| `BillingRecovery.NextAction` | src/internal/usecase/aggregator.go:279-398 | At every point of a run a fault-free action is possible if the files can be scanned and no file is called tmp |
| `BillingRecovery.ReplayBillsNothing` | src/internal/usecase/aggregator.go:316-328 | If everything in tmp is committed, nothing is billed until the next flow file arrives, whatever fails and however often the service restarts |
| `BillingRecovery.EmptyDirDefers` | README.md:108-111 | With an empty nas directory runs move, bill and delete nothing until a file arrives |
| `BillingRecovery.OverlongLineBlocks` | src/internal/repository/storage/flow.go:135-146 | A file still to be billed, in tmp or in the nas directory, with a line the scanner cannot hold stays there for good: from then on nothing of that nas is billed, deleted or cleared |
| `BillingRecovery.TmpNameBlocks` | src/internal/repository/storage/flow.go:67-98 | While a regular file of the nas directory is called tmp, that file stays and nothing of that nas is billed, deleted or cleared, whatever fails, arrives or restarts |
| `BillingRecovery.TmpNameExample` | src/internal/repository/storage/flow.go:67-98 | An initial state with a flow file and a file called tmp: the directory is ready, its files can be scanned, and no run can go well |
| `BillingRecovery.RecoveryExactly` | src/internal/repository/storage/flow.go:67-146 | From any state between runs: a fault-free run to a clean end, or to a tmp in which nothing new can be classified, exists iff, with a file in the directory, tmp is there or some flow file is, no file is called tmp, and the scanner gets through every file still to be billed; or, in an empty directory, the end is reached already |
| `BillingOutcome.GoneWellBills` | src/internal/usecase/aggregator.go:279-398 | After a run that goes well, from any state of any history, no flow file is left outside tmp, and every file that was outside or uncovered in tmp has been billed, or swept with its batch, which was recognised and owed no rows, or lies in a tmp in which nothing new can be classified |
| `BillingOutcome.NothingOwedExactly` | src/internal/usecase/aggregator.go:357-377 | With sessions, a batch is recognised and swept without a row iff some line is classified and either no record touches the internal network or no channel is enabled |
| `BillingRecovery.BlockedAtRest` | src/internal/repository/storage/flow.go:135-146 | Between runs, some file blocks the nas iff the scanner cannot get through all files still to be billed |
| `BillingRecovery.LongFileBlocks` | src/internal/repository/storage/flow.go:135-146 | An initial state with one file of 65536 characters without a line feed in tmp is blocked |
| `BillingRecovery.BatchKept` | src/internal/usecase/aggregator.go:341-350 | A batch is kept for the next cycle iff not one line of any of its files can be classified |
| `Aggregator.Aggregate` | src/internal/usecase/aggregator.go:279-398 | Whatever fails, arrives or is committed elsewhere meanwhile, the run is a legal run of the protocol that begins with its job and ends with the worker idle; the chunk rows of this nas are those from before and those of the ledger, no more and no less, and the rows of other nas are those they have left; a failure among its events means that an action or statement failed or something was in its way; without a fault and in a ready directory tmp and the checkpoint end empty unless nothing new can be classified |
| `Host.NasHost.FailsForAReason` | src/internal/usecase/aggregator.go:279-398 | A run records a failure only if the outside world made an action or a statement fail since it began, or it gave up where something was in its way |
| `BillingRecovery.ObstacleBlocks` | src/internal/repository/storage/flow.go:67-161 | Where a run gives up, no action but failing was possible: no tmp to move to, a line too long in the file to read next, or the name of tmp taken |
| `BillingRecovery.NothingInTheWay` | src/internal/repository/storage/flow.go:67-161 | In a directory without overlong lines and without a file called tmp a run never comes to such a point, as long as no file arrives |
| `Aggregator.FinishRun` | src/internal/usecase/aggregator.go:316-398 | From the end of the stream: verdict, save and sweep follow the protocol in every branch |
| `Aggregator.TakeVerdict` | src/internal/usecase/aggregator.go:316-377 | Replay iff everything in tmp is covered; else left in tmp iff nothing was classified, nothing to bill iff nothing touches the network or no row is owed, else exactly the rows owed |
| `Aggregator.PrepareAndStream` | src/internal/usecase/flow.go:32-72 | Every listed flow name is moved, in order; on success the accumulator has taken exactly the lines of the uncommitted files |
| `Aggregator.HasNewFile` | src/internal/usecase/aggregator.go:457-465 | True iff some name is not committed |
| `Aggregator.RemoveOldFlow` | src/internal/usecase/aggregator.go:527-549 | The checkpoint is touched only after the whole deletion succeeded |
| `Aggregator.SiftAccumulated` | src/internal/usecase/traffic.go:250-280 | Sifting what the accumulator holds gives exactly the rows the lines owe; no data iff there are none |
| `Host.NasHost.Interfere` | src/internal/usecase/aggregator.go:187-202 | Between two actions files may arrive and other nas may commit; the worker, tmp and the checkpoint of this nas stay |
| `Host.NasHost.OthersFindTheirs` | src/internal/usecase/aggregator.go:533-548 | Whatever a run of this nas has done, every other nas finds in both tables exactly what it has left there |
| `Host.NasHost.SaveRows` | src/internal/usecase/aggregator.go:492-522 | The rows and names of the batch are added once, as a whole or not at all, success means they are, and no row of another nas changes in either table; a failed save ends the run |
| `Host.NasHost.ClearRows` | src/internal/usecase/aggregator.go:533-548 | Removes exactly the checkpoint rows of this nas or nothing, success means they are gone, no row of another nas and no chunk row changes, and the run ends |
| `Host.NasHost.RemoveAll` | src/internal/repository/storage/flow.go:150-154 | Files go one by one in any order; success leaves no tmp, a failure leaves the rest |
| `Host.NasHost.RenameToTmp` | src/internal/repository/storage/flow.go:75-80 | The head of the list moves from the nas directory into tmp |
| `Host.NasHost.ReadTmpDir` | src/internal/repository/storage/flow.go:93-98 | Lists tmp; fails when tmp is not there |
| `Host.NasHost.Do` | src/internal/usecase/aggregator.go:279-398 | Recording an event keeps the record a legal run |
| `Host.ListFiles` | src/internal/repository/storage/flow.go:47-60 | A listing has every file once, in any order, and no directory |
| `Storage.ReadFileNamesInFlowDir` | src/internal/repository/storage/flow.go:47-64 | Yields the names that are not directories; no data iff the listing succeeded and had none, an I/O error iff it failed, and either ends the run |
| `Storage.MoveFlowToTempDir` | src/internal/repository/storage/flow.go:67-81 | Makes tmp if it is missing, then renames; a failure ends the run with the rest unmoved |
| `Storage.StreamFile` | src/internal/repository/storage/flow.go:126-147 | On success the accumulator has taken every line of the file and the size counts them; a failed read or an overlong line ends the run |
| `Storage.StreamFlow` | src/internal/repository/storage/flow.go:88-123 | On success the list has every flow name in tmp, the accumulator has taken exactly the lines of the uncommitted files, and the size is theirs |
| `Storage.SizeOfExactly` | src/internal/repository/storage/flow.go:137-139 | The size counts every line with its characters and one more |
| `Storage.RemoveOld` | src/internal/repository/storage/flow.go:150-161 | Delete, remake, keep file, in this order; the run may stop after any of them |
| `Database.SaveChunkListWithCheckpoint` | src/internal/usecase/aggregator.go:492-522 | After any failure both tables hold everything or nothing of the save, each row once, no error means everything, and the session is inactive on every return |
| `Database.ClearCheckpoint` | src/internal/usecase/aggregator.go:533-548 | Removes the rows of this nas only, or nothing; the session is inactive on every return |
| `Database.ReadCheckpoint` | src/internal/usecase/aggregator.go:468-485 | Yields the names of this nas and changes nothing; the session is inactive on every return |
| `Database.SaveChunkList` | src/internal/repository/postgresql/session.go:34-56 | On success every row is queued once; on failure exactly the rows before the failing insert are |
| `Database.SaveFileNames` | src/internal/repository/postgresql/flow_batch.go:52-82 | On success every name is in the table after the commit, whatever was there before; on failure exactly the names before the failing insert are queued |
| `Database.RemoveByNasIP` | src/internal/repository/postgresql/flow_batch.go:85-91 | After the commit no row of the nas is left and the rows of every other nas are as they would have been |
| `Database.LoadCommittedFileNames` | src/internal/repository/postgresql/flow_batch.go:23-49 | Yields exactly the names stored for the nas; none is no error |
| `Database.RowsOfOneNas` | src/internal/repository/postgresql/flow_batch.go:85-91 | Writing or clearing the rows of one nas leaves those of every other alone |
| `Database.RowsExactly` | src/internal/repository/postgresql/flow_batch.go:52-91 | The rows of a nas and a list of names are the pairs of the two; those without a nas are the rows of the others |
| `Database.AddedExactly` | src/internal/repository/postgresql/session.go:34-56 | Rows added for a nas are added to those it has, and no other nas gets any |
| `Database.SqlSession.Start` | src/internal/transaction/sql.go:19-27 | Refused while a transaction is active; else begins one, or leaves the session initialised without one |
| `Database.SqlSession.Commit` | src/internal/transaction/sql.go:44-57 | Applies the queued changes as a whole or not at all and ends the transaction either way; errors tell an uninitialised session from one without a transaction |
| `Database.SqlSession.Rollback` | src/internal/transaction/sql.go:29-42 | Ends the transaction without touching the tables, so a deferred one never undoes a commit |
| `Database.DanglingMeansFailedStart` | src/internal/transaction/sql.go:19-57 | Over any sequence of calls the session is initialised without a transaction iff the last Start that found none open failed |
| `Accumulator.FlowAccumulator.AccumulateLine` | src/internal/usecase/traffic.go:66-115 | After any sequence of lines the map and the counters are those of the declarative sum over them; a malformed line changes nothing; inner maps of different addresses stay apart |
| `Accumulator.FlowAccumulator.TakeRecord` | src/internal/usecase/traffic.go:94-114 | Counts the record, or the failed lookup of either end |
| `Accumulator.FlowAccumulator.Count` | src/internal/usecase/traffic.go:118-158 | The record is added to the download of its source and to the upload of its destination, each if it lies inside, on channel 1 if the other end does too and on channel 2 if not; no other cell changes; self-flows included |
| `Accumulator.CountExactly` | src/internal/usecase/traffic.go:118-158 | The same of the function on values that the method is proved against |
| `Accumulator.FlowAccumulator.Result` | src/internal/usecase/traffic.go:163-180 | No error iff some classified record has an end inside, no data iff some was classified and none has, internal error iff none was classified |
| `Accumulator.FlowAccumulator.ReadRecord` | src/internal/usecase/traffic.go:66-92 | Yields the record the text of the line says, and none iff it says none: a header in it, not three fields, an address or a byte count that cannot be read |
| `FlowLine.SeeExactly` | src/internal/usecase/traffic.go:66-115 | A line is passed over iff its text is no record; a record is unclassified iff the lookup of either end fails, and otherwise taken with its bytes, its two addresses and where they lie |
| `FlowLine.SaysOnce` | src/internal/usecase/traffic.go:66-92 | A line is at most one record |
| `Accumulator.FlowAccumulator.ParseRecordSteps` | src/internal/usecase/traffic.go:183-205 | A record with both addresses and the number read iff all three can be; undefined address iff either cannot, undefined size iff only that cannot |
| `Accumulator.CountIsTally` | src/internal/usecase/traffic.go:118-158 | Counting one more record turns the tally of the records before it into the tally with it, on every address and channel |
| `Traffic.TotalExactly` | src/internal/usecase/traffic.go:118-158 | The tally holds, for each address, on channel 1 as download the bytes of the records between two inner ends that it is the source of and as upload of those it is the destination of, on channel 2 the same for records with the other end outside, and nothing on any other channel |
| `Traffic.TouchedExactly` | src/internal/usecase/traffic.go:118-158 | The addresses in the tally are the ends of classified records that lie inside |
| `Accumulator.TallyShaped` | src/internal/usecase/traffic.go:208-247 | Every inner map has exactly the enabled channels as keys |
| `Cells.CountTraffic` | src/internal/usecase/traffic.go:208-233 | A table in use grows in place by the traffic on its channel iff the flag of that channel is true; otherwise a new table has a cell for exactly the channels whose flag is true, that channel's with the traffic and all others zero |
| `Cells.CreateNewEmptyTrafficMap` | src/internal/usecase/traffic.go:236-247 | Zero cells on exactly the channels whose flag is true |
| `Traffic.TallyConcat` | src/internal/usecase/traffic.go:66-158 | Accumulating two batches is merging their separate results cell by cell |
| `Accumulator.ResultPermuted` | src/internal/usecase/traffic.go:66-180 | Neither the traffic nor the status depends on the order of lines or files |
| `Traffic.Conservation` | src/internal/usecase/traffic.go:118-158 | Internal downloads, internal uploads and internal-to-internal bytes are equal; external downloads and uploads are the bytes of the two one-sided cases |
| `Traffic.TotalBounded` | src/internal/usecase/traffic.go:118-158 | With sizes in [0, most] no counter exceeds most times the classified records |
| `Traffic.TouchedEmpty` | src/internal/usecase/traffic.go:170-177 | The map is empty iff no classified record touches the internal network |
| `Sift.SiftTraffic` | src/internal/usecase/traffic.go:250-280 | The chunks are the rows of the sessions, whatever order the cells are walked in; no data iff there is none |
| `Sift.SiftIsOwed` | src/internal/usecase/traffic.go:250-280 | Sifting accumulated traffic gives, for every session and enabled channel, the total of the lines |
| `Sift.RowOwedExactly` | src/internal/usecase/traffic.go:253-272 | A row is owed iff it is that of some session and of some channel whose flag is true, with the session and channel id and the two totals of the address on that channel, zero for an idle session |
| `Sift.RowsOwedSize` | src/internal/usecase/traffic.go:253-272 | As many rows as sessions times enabled channels |
| `Sift.RowsOwedOnce` | src/internal/usecase/traffic.go:253-272 | With unique session ids each pair of session and channel has one row |
| `Sift.RowsOwedTotal` | src/internal/usecase/traffic.go:253-272 | The rows of a channel sum to the traffic of exactly the addresses that have a session |
| `World.Serializable` | src/internal/usecase/aggregator.go:187-209 | Any interleaving of the events of different nas leads to the directories, checkpoints and chunk rows of running the nas one after another, in any order |
| `World.Rearranged` | src/internal/usecase/aggregator.go:187-209 | If a log is legal, so is every log with the same events per nas in the same order, and it ends alike |
| `World.AfterLogView` | src/internal/usecase/aggregator.go:187-209 | What a nas sees depends on its own events only |
| `World.LegalByNas` | src/internal/usecase/aggregator.go:187-209 | A log is legal if the events of each nas by themselves are |
| `World.AfterLogRows` | src/internal/usecase/aggregator.go:385-390 | The chunk table grows by exactly what the ledgers of all nas grow by |
| `World.StepTables` | src/internal/usecase/aggregator.go:492-548 | What an event does to the shared tables: a save that took effect adds its rows and the names of its nas, a clearing that took effect deletes the rows of its nas, and no other event touches either |
| `World.StepKeepsAll` | src/internal/usecase/aggregator.go:187-209 | An event of one nas keeps the invariant of every nas |
| `CycleSafety.ServiceKept` | src/internal/usecase/aggregator.go:93-210 | Every step of cron, loaders, dispatch, pool and tasks, every kill and restart keeps the invariant of the service |
| `CycleSafety.ServiceRunKeeps` | src/external/cron.go:25-38 | So does every run of the service, over any number of cycles |
| `CycleSafety.FreshTask` | src/internal/usecase/aggregator.go:187-202 | No nas is dispatched twice in a cycle |
| `CycleSafety.OwnKept` | src/internal/usecase/aggregator.go:187-202 | Every run and every bill of a nas is for sessions of that nas |
| `CycleSafety.OwnBegin` | src/internal/usecase/aggregator.go:187-202 | A run is begun with all the sessions loaded for its nas, at least one, and with the channels loaded |
| `CycleHistory.PoolSafety` | src/tools/workerpool/workerpool.go:35-93 | At most pool size tasks run at a time, one if that is below one; giving a slot back never blocks, Done is never one too many; outside dispatch and Wait every task has ended and no slot is held |
| `CycleHistory.PoolIsFull` | src/tools/workerpool/workerpool.go:41-62 | A task waiting for a slot can take one iff fewer than the pool size, or than one if that is below one, hold one |
| `CycleHistory.TxNeeded` | src/internal/usecase/aggregator.go:468-548 | Reading the checkpoint, saving and clearing each happen in a transaction of their own that is open at that moment |
| `CycleHistory.WaitMeans` | src/tools/workerpool/workerpool.go:91-93 | When Wait returns every task has ended, no slot is held, no transaction open, and every dispatched nas has begun its run |
| `CycleHistory.NoOverlap` | src/external/cron.go:29-37 | When a task starts its run, in whatever cycle, no other run of that nas is under way |
| `CycleHistory.DispatchedPrefix` | src/internal/usecase/aggregator.go:187-209 | The dispatched nas are the known ones among the first k directories, of all of them unless cancelled; each begins exactly one run |
| `CycleHistory.CancelledSpawnsNothing` | src/tools/workerpool/workerpool.go:54-66 | Once cancelled with nothing past the check of the context, no task is spawned in this cycle or a later one of the process |
| `CycleHistory.TxBound` | src/internal/usecase/aggregator.go:127-168 | At most max(2, pool size) transactions are open at a time, none between cycles, panics included |
| `CycleHistory.ServiceLog` | src/internal/usecase/aggregator.go:187-209 | Directories and tables after a run of the service are those its log of protocol events leads to, and that log is legal |
| `CycleHistory.ServiceSerializable` | src/internal/usecase/aggregator.go:187-209 | The whole service, over all its cycles, reduces to the nas taken one after another |
| `CycleHistory.ServiceBillsRight` | src/internal/usecase/aggregator.go:187-209 | In every reachable state of the service every nas has billed each file at most once, rightly and as it arrived, lost none, and billed only its own sessions |
| `CycleHistory.ServiceRows` | src/internal/usecase/aggregator.go:385-390 | The chunk table holds what it held at the start and the rows of all ledgers, no more and no less |
| `CycleProgress.OwnStepCloser` | src/internal/usecase/aggregator.go:187-209 | Every step of the service itself lowers a lexicographic measure of undispatched directories, loaders and task counters |
| `CycleProgress.OutsideStaysAway` | src/internal/usecase/aggregator.go:187-209 | Arrivals and a cancellation do not raise that measure |
| `CycleProgress.NeverStuck` | src/tools/workerpool/workerpool.go:54-93 | In every state of a cycle, whatever directories and tables hold, some step is possible, and one that does not fail, loaders and listing included, if there is a directory, the files can be scanned and none is called tmp |
| `CycleProgress.CycleEnds` | src/internal/usecase/aggregator.go:187-209 | From any state of a cycle its own steps lead to its end, with no run under way, no slot held and no transaction open |
| `CycleProgress.CycleWithoutFault` | src/internal/usecase/aggregator.go:93-210 | From any reachable state between cycles in which no directory holds a file the scanner cannot get through or one called tmp, whatever the tables hold, a whole cycle can go by without a fault: it dispatches every directory that has sessions, each run ends, and every directory that was ready ends clean but for new files that cannot be classified |
| `CycleProgress.NoEndlessCycle` | src/internal/usecase/aggregator.go:187-209 | No cycle goes on for ever, even if files keep arriving |
| `Loaders.LoadOnlineSessionMap` | src/internal/usecase/session.go:31-52 | No map unless the rows were read; else every session is in the group of its nas, groups are non-empty and in order; errors other than no data become internal errors |
| `Loaders.GroupPositions` | src/internal/usecase/session.go:37-42 | A group is taken from rising positions of the list, all of its nas and no other |
| `Loaders.GroupsPartition` | src/internal/usecase/session.go:37-42 | Together the groups are the list, with multiplicities |
| `Loaders.LoadChannelMap` | src/internal/usecase/channel.go:31-51 | The map has the ids of the rows, each with the flag of its last row |
| `Loaders.RowsAreOwn` | src/internal/usecase/traffic.go:253-272 | Every row owed belongs to a session of the job and an enabled channel |
| `FlowGen.Generate` | src/tools/flowgen/flowgen.go:50-85 | The file is the header and the hundred drawn records, alternating in direction, under a name that is taken for a flow file; the returned totals are theirs, or zero when the directory could not be made |
| `FlowGen.RoundTrip` | src/tools/flowgen/flowgen.go:60-77 | For any number of records the accumulated file gives the client exactly the generator's totals on the external channel, zero on every other, and nothing to anybody else |
| `FlowGen.ExpectedChunk` | src/internal/usecase/aggregator.go:101-106 | A session of the client is owed for a generated file the row with channel id 2 and the generator's totals, once, and nothing but zeros on other channels |
| `FlowGen.LineReadBack` | src/tools/flowgen/flowgen.go:69-77 | A printed record is no header and is read back as that record |
| `FlowGen.UnreadableFileSwept` | src/internal/usecase/aggregator.go:341-350 | A concrete pair of files: one without a record is kept when alone and swept together with a generated one |
| `Text.SplitJoin` | src/internal/usecase/traffic.go:80 | Splitting what was joined gives the fields back |
| `Text.JoinSplit` | src/internal/usecase/traffic.go:80 | Joining what was split gives the line back |
| `Text.AtoiPrintNat` | src/internal/usecase/traffic.go:199 | Parsing a printed number gives the number back |
| `Text.AtoiExactly` | src/internal/usecase/traffic.go:199 | Read are exactly an optional sign and digits whose value fits 64 bits, as that value |
| `Text.ValueOfFront` | src/internal/usecase/traffic.go:199 | Each digit counts by its place |
| `Text.LinesCons` | src/internal/repository/storage/flow.go:135-139 | A line and its line feed in front of a file add exactly that line, and the scanner gets through iff it fits |
| `Text.LineByLine` | src/internal/repository/storage/flow.go:135-139 | A line ends at a line feed, one carriage return before it is dropped, and 65536 characters are too many |
| `Text.LastLine` | src/internal/repository/storage/flow.go:135-139 | The last line needs no line feed, and after a final one there is no line |
| `Address.ParseShowV4` | src/tools/flowgen/flowgen.go:62-77 | Parsing a printed IPv4 address gives the address back |
| `Address.ShowIPExactly` | src/internal/usecase/traffic.go:118-156 | The key of an IPv4 address is its four numbers in decimal, that of an IPv6 address what the library prints |
| `Address.ParseV4Exactly` | src/internal/usecase/traffic.go:186-197 | Exactly the printed form of an IPv4 address is read as that address; no part is above 255 |
| `Address.ParseIPByMark` | src/internal/usecase/traffic.go:186-197 | The first dot, colon or percent sign decides the grammar; without one, or with a percent sign first, there is no address |

## Left out

- Metrics, tracing, logging, measurements and dumps: they observe only; a panic in them is the panic of a run.
- The HTTP server, probes, configuration, wiring, mocks and the load generator.
- SQL text, drivers and the query generator: the tables are a multiset of chunk rows and a set of checkpoint rows, and any statement may fail.
- The library behind the internal-network lookup, IPv6 parsing and IPv6 printing: parameters.
- 64-bit wrap-around of the counters and the column widths of the database: counters are integers, with the bound `Traffic.TotalBounded`; an insert that does not fit is an insert that fails.
- Durability under power loss, file permissions, links, directories inside tmp, clocks and tickers.
- accountTraffic and the values handed to metrics other than the flow size.
- The concurrency of one task with itself: a task is one goroutine, and its I/O actions are its atomic steps.
- A panic inside the panic callback: it takes the process down, which the model has as a crash at that point.
- The receives from the two loader channels: they are one step with the wait for the loaders, which follows them and decides when dispatch may start.
- FlowGen.Generate: the random draws and the time stamp are parameters.
- FlowGen.RoundTrip: the peers are IPv4 addresses, as the generator draws them; the client may be any address of at most 45 characters out of digits, a-f, A-F, dots and colons that the parser accepts.
