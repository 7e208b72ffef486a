# spacenet: directory index, digest, generator - a verified model

This project models the parts of spacenet whose correctness is not visible from any one function, and proves what they are for.

* **The directory index** (`src/indexer.cpp`). A pass walks a directory tree and keeps two SQLite tables, `entries` and `blocks_digests`, by mark and sweep. Every SQL statement of the scan is a step of its own, so a pass can throw, die or be told to stop between any two of them; the closing sweep is one transaction, opened without rollback, so that it takes effect as a whole, or, when a statement of it throws, up to that statement, or not at all. `Store` gives each statement its meaning on a pair of maps, `Pass` gives a pass as the sequence of statements it issues, and a *history* is any sequence of passes, each of which completes, is stopped and still sweeps, fails in its sweep after the first DELETE or after both, or is cut off after any number of statements. `Integrity`, `History`, `Stabilise`, `Incremental` and `Current` prove what holds over all histories, and `Flaws` gives histories, from the empty database, that end where the design did not mean to end. Three statements run with exceptions off: the two INSERTs, of which any error but the unique conflict is ignored, and the SELECT that looks for the rowid of a row just inserted, whose error is taken for rowid 0. `Losses` is the same model with all that as a parameter, `Damage` and `LostDigests` say exactly what each loss spoils, and `Recovery` what puts it right. `Database` and `Indexer` are the imperative program: tables and a cache updated in place, a reused read buffer, digest contexts, a transaction that is committed or rolled back. `Indexer.DirectoryIndexer.Reindex` is proved to issue, whatever fails, exactly the statements of a run that loses what SQLite refused with exceptions off; if it lost nothing, that run is one of those the theorems about histories quantify over.
* **The traversal** (`directory_reader::read`). `Reader` has the explicit stack of suspended search handles, and is proved against the recursive `Tree.Preorder`.
* **The digest** (`src/cdc512.cpp`). `Mixing` and `Cdc512`; `Shuffles` has the lines of both mixes as the source writes them, on words by name; `Vectors` proves the known answers of `tests/cdc512_test.cpp`; `FileDigest` joins the digest to the index.
* **The generator** (`include/rand.hpp`). `Isaac` (one batch), `Seeding` (the two passes of `randinit`), `Generator` (the class over in-place arrays, and the stream `get` delivers) are written once for any word type, as the template is; `Widths` supplies `uint32_t` and `uint64_t`. `SlotNumbers` states the self-indexed reads as arithmetic on the word (with `Shifts`, which turns shifts and masks into division and remainder), and `GeneratorVectors` proves known answers of `get` after seeding.
* **The worker thread** (`src/tracker.cpp`) in `Tracker`, and `str_replace` (`include/std_ext.hpp`) in `StrReplace`.

Where the code does less than its design promises, the code is modelled as it is and the exact condition is proved:

* A `modified_only` pass that meets a file whose time is zero touches the row but hashes the file again if the stored time is not zero. For a file never seen at time zero before, stored digests stay truthful if and only if its time is not zero or the stored one is (`History.ZeroTimeExactly`, reached in `Flaws.LyingDigest`). Over whole histories they are truthful as long as no such pass sees at time zero a file that an earlier pass saw at another time, and the next point does not apply (`History.CrashConsistency`).
* The sweep is opened without rollback, so when its second DELETE throws, the first is committed. The tables stay integral, but stored digests stay truthful if and only if every unmarked row with a digest is that of an empty file (`History.HalfSweepExactly`); otherwise a row keeps time and digest without its blocks, and a fast pass and a full one no longer end alike (`Flaws.HalfSweep`). Committed after both DELETEs the sweep does no harm.
* An INSERT that fails with an error other than the conflict is ignored, and so is an error of the SELECT after it. If it was that of a new directory, its entries are stored as roots (`Flaws.MisplacedChild`); if it was that of a new file, its blocks are stored under rowid 0 (`Flaws.StrayBlock`); if it was that of a block, the file gets its digest without the block row (`Flaws.MissingBlock`). Integrity and the `parents` cache survive a loss exactly when it is harmless (`Damage.CallbackExactly`, and for scans and histories `Damage.ScanExactly` and `Damage.HistoryExactly`); the tables record the file exactly when nothing that mattered was lost (`LostDigests.RecordedExactly`). Whatever was lost, one pass that gets through its sweep and a complete one that loses nothing put the rows right again (`Recovery.Recovers`); no pass that loses nothing ever removes the blocks under rowid 0 (`Recovery.StrayBlocksStay`).
* When an entry changes from file to directory or back and its time hides the change, the row keeps the old kind - if and only if (`Stabilise.KindExactly`, reached in `Flaws.StaleKind`).
* "Undefined behavior" is thrown if and only if an accessible entry lies in a directory that fails the access check (`Stabilise.ThrowsExactly`, reached in `Flaws.LockedFolder`).
* Blocks are deleted only after a read that delivers something, so a file truncated to nothing keeps its old block rows (`FileDigest.BlockRowsExactly`, reached in `Flaws.StaleBlocks`).
* A stopped pass still sweeps, and removes the rows of every path it has not reached (`Stabilise.SweptPass`).
* The 64-bit generator xors `a` into a mix that already holds it, so states merge: every state has a twin (`Widths.Isaac64Merges`). The 32-bit one is reversible.
* The mask of the 64-bit `ind` is computed in `int`. From ALPHA = 29 on it is negative and the reads leave the memory, up to 28 they do not (`Widths.ReadsInBounds64Exactly`); the theorems about the 64-bit generator are for ALPHA up to 28.
* The two seeding passes map memories to memories injectively if and only if ALPHA is greater than 3 (`Widths.Seeding32Exactly`, `Widths.Seeding64Exactly`). A seed shorter than the buffer has its front cleared: for ALPHA greater than 3, 32-bit seeds of one length give distinct states if and only if they fill the buffer (`Widths.SeedData32Exactly`). Seeding from three words loses nothing, with ALPHA = 3 included (`Widths.SeedWords32`).
* `str_replace` with an empty pattern never ends unless the subject is empty (`StrReplace.EmptyPatternStays`).

`dafny verify dfyconfig.toml` checks the whole project.

## Model

| member | source | states |
|---|---|---|
| Tree.PreorderUnder | src/indexer.cpp:492-545 | every reported path lies below its directory, with level equal to depth |
| Tree.PreorderDistinct | src/indexer.cpp:492-624 | no path is reported twice |
| Tree.PreorderParentsFirst | src/indexer.cpp:612-624 | with all directories reported, a directory comes before everything it contains |
| Tree.PreorderDepth | src/indexer.cpp:615-615 | a nonzero `max_level_` limits the levels reported to `max_level_` + 1; without recursion there is one level |
| Tree.FiltersSpareDescent | src/indexer.cpp:540-629 | masks and `list_directories_` filter the calls and never change where the traversal goes |
| Tree.PreorderExactly | src/indexer.cpp:497-629 | an entry is reported if and only if a chain of entries leads down to it, each but the last a directory that recursion and `max_level_` let the reader enter, none named "", "." or "..", and mask and `list_directories_` admit it |
| Tree.PreorderConcat | src/indexer.cpp:492-632 | everything about an entry, what lies below it included, is reported before anything about the entries listed after it |
| Reader.Handles.FindFirst | src/indexer.cpp:443-449 | opening a directory gives a handle never in use, positioned on the first entry, or fails and opens nothing |
| Reader.Handles.FindNext | src/indexer.cpp:632-632 | the next entry in order, or none and no change |
| Reader.Handles.FindClose | src/indexer.cpp:395-400 | only an open handle can be closed, so none is closed twice |
| Reader.StackSame | src/indexer.cpp:383-392 | suspended directories do not notice what happens to other handles |
| Reader.StackPush | src/indexer.cpp:615-619 | pushing the current directory suspends its remaining entries, with its handle owned by the stack alone |
| Reader.DirectoryReader.Announce | src/indexer.cpp:612-629 | the callback runs exactly for matching entries, directories only when they are to be listed |
| Reader.DirectoryReader.Suspend | src/indexer.cpp:615-623 | turning to a subdirectory leaves the planned calls unchanged and the work left smaller |
| Reader.DirectoryReader.EntryFirst | src/indexer.cpp:540-629 | an entry's own call comes first, then those below it, then the rest of the directory |
| Reader.DirectoryReader.Process | src/indexer.cpp:540-629 | one entry: reported, and descended into or passed, keeping the planned sequence of calls |
| Reader.DirectoryReader.Turn | src/indexer.cpp:493-632 | one turn of the inner loop keeps the planned calls and makes progress |
| Reader.DirectoryReader.ScanDirectory | src/indexer.cpp:492-638 | the inner loop ends at the end of the listing, at a directory to descend into, at an abort or at an exception |
| Reader.DirectoryReader.OpenDirectory | src/indexer.cpp:443-478 | opening is the next step of the plan, and a failed open holds no handle |
| Reader.DirectoryReader.Resume | src/indexer.cpp:453-462 | popping continues the suspended directory where it stood, one level up |
| Reader.DirectoryReader.LeaveDirectory | src/indexer.cpp:480-484 | the scope exit closes the current handle exactly when the stack does not own it |
| Reader.DirectoryReader.CloseSuspended | src/indexer.cpp:394-400 | every suspended handle is closed once |
| Reader.DirectoryReader.Round | src/indexer.cpp:427-640 | one round of the outer loop keeps the plan and strictly reduces the work, or ends the traversal |
| Reader.DirectoryReader.Read | src/indexer.cpp:360-641 | the calls are a prefix of the recursive preorder, all of it when the traversal returns without an abort; none follows an abort or exception; all handles opened are closed on every exit; it returns early only where a directory is not found, and throws only if something failed |
| Store.SplitBoundary | src/indexer.cpp:676-743 | a statement boundary of two sequences is a boundary of the first, or of the second run after the first |
| Store.DenotesOnePath | src/indexer.cpp:650-663 | a parent chain spells one path |
| Store.DenotesOneRow | src/indexer.cpp:652-664 | UNIQUE(parent_id, name) gives each path at most one row |
| Store.MarkedPrefix | src/indexer.cpp:926-951 | all ancestors of a row marked 0 are marked 0 |
| Store.PutKeepsStructure | src/indexer.cpp:687-721 | writing a row below a marked parent keeps keys, forest, marks and block ownership |
| Store.BlocksKeepStructure | src/indexer.cpp:723-743 | rewriting block rows of an existing entry keeps the integrity of the tables |
| Store.SweepKeepsMarked | src/indexer.cpp:998-1009 | a row denotes a path after the sweep exactly if it did before and was marked |
| Store.SweepKeepsStructure | src/indexer.cpp:998-1009 | the sweep orphans no row, leaves no block row behind and marks every survivor alive |
| Store.SweepBlocksKeepsStructure | src/indexer.cpp:991-1006 | a sweep committed after its first DELETE leaves integral tables |
| Store.SweepRowsKeepsStructure | src/indexer.cpp:991-1007 | so does a sweep committed after both DELETEs, with every row still marked |
| Pass.VisitsWholeTree | src/indexer.cpp:911-975 | a pass meets every entry of the tree, at any depth, under its own path, and nothing else |
| Pass.EntryEffect | src/indexer.cpp:773-845 | `update_entry` writes one row under the key, and no boundary inside it shows a third state |
| Pass.EntryColumns | src/indexer.cpp:687-711 | column by column: under the key there is one row afterwards, with the time it had, NULL if it is new; the mark is 0; a row that is only touched keeps the rest, any other has kind, size and block size as bound, NULL for zero, and no digest; no other row and no block changes |
| Pass.OneBlockEffect | src/indexer.cpp:749-771 | one block: the rows up to its number are the digests so far, whatever was there before |
| Pass.BlocksEffect | src/indexer.cpp:847-909 | a file that delivers anything leaves exactly its blocks, numbered from one; at no boundary are other entries touched |
| Pass.FileEffect | src/indexer.cpp:958-970 | time and digest are set together and only after the last block of a read that succeeded |
| Pass.NodeEffect | src/indexer.cpp:943-970 | a visit writes one row of `entries` and no blocks but its own |
| Integrity.PutSound | src/indexer.cpp:687-721 | a justified row write keeps the history invariant |
| Integrity.BlocksSound | src/indexer.cpp:749-771 | block rows may change at any boundary because the digest is NULL meanwhile |
| Integrity.SweepSound | src/indexer.cpp:998-1009 | the sweep keeps the history invariant |
| Integrity.SweepBlocksSound | src/indexer.cpp:991-1006 | the first DELETE alone keeps the history invariant if it takes no blocks of a row with a digest |
| Integrity.SweepRowsSound | src/indexer.cpp:991-1007 | both DELETEs alone keep the history invariant |
| Integrity.AllowedIsSafe | src/indexer.cpp:823-824 | if no earlier pass saw the file at a time other than zero, a row met at time zero has no stored time |
| Integrity.NulledIsAbandoned | src/indexer.cpp:693-705 | a row loses its digest in a `modified_only` pass only when its file has left the stored time |
| Integrity.NodeSound | src/indexer.cpp:943-970 | the invariant holds at every boundary of a visit |
| Integrity.ManipulateCache | src/indexer.cpp:926-954 | each path in `parents` maps to the marked row whose parent chain spells it, before and after every callback |
| Integrity.ScanSound | src/indexer.cpp:911-973 | the invariant holds at every boundary of a scan, and `parents` agrees with the table throughout |
| Integrity.RunSound | src/indexer.cpp:645-1015 | the invariant holds at every boundary of a pass, however it ends; where digests matter, a sweep committed half done must have taken no blocks of a row with a digest |
| Integrity.HistorySound | src/indexer.cpp:645-1015 | the invariant holds after every history, in three strengths |
| Paths.FoundAt | src/indexer.cpp:676-685 | the row selected by (parent_id, name) is the row of the path |
| Paths.OneRowPerPath | src/indexer.cpp:652-664 | every row denotes one path and every path at most one row |
| Paths.PutRowAt | src/indexer.cpp:687-721 | writing the row of one path changes the table, seen by path, there only |
| Paths.VisitRowAt | src/indexer.cpp:913-971 | a visit marks its entry and the root, sets the entry's kind, and leaves every other path as it was |
| Paths.VisitColumns | src/indexer.cpp:939-970 | the whole row at the path after a visit, from the row that was there: time and digest are those of the file if it was read to its end; otherwise the stored time stays as it was, and the digest goes unless the row was only touched |
| Paths.RootColumns | src/indexer.cpp:926-934 | the row of the root: a directory without time or size, brought up to date once and then left alone |
| Stabilise.ThrowsExactly | src/indexer.cpp:926-954 | "Undefined behavior" is thrown if and only if an accessible entry lies in a directory that fails the access check; never if all directories pass it |
| Stabilise.ScanMarks | src/indexer.cpp:823-836 | a scan marks exactly the paths it reaches, on top of those already marked |
| Stabilise.SweepKeepsMarkedPaths | src/indexer.cpp:998-1009 | exactly the marked paths survive the sweep |
| Stabilise.SweptPass | src/indexer.cpp:973-1014 | after a pass that sweeps, stopped early or not, the rows are those of the paths it reached and of the paths an interrupted pass had left marked |
| Stabilise.TwoPassesStabilise | src/indexer.cpp:645-1015 | after any history, two complete passes leave exactly one row per path of the tree, and none for an empty root |
| Stabilise.ScanKind | src/indexer.cpp:823-836 | the kind a scan leaves depends only on the row it found |
| Stabilise.KindExactly | src/indexer.cpp:822-836 | after a complete pass a row has the right kind if and only if the stored time did not hide a change of kind |
| History.IntegrityAtEveryBoundary | src/indexer.cpp:650-674 | at every statement boundary of every history, sweeps that are committed half done included, parents exist, chains are finite, keys are unique, marks are closed upward, block rows are owned |
| History.SweepOrphansNothing | src/indexer.cpp:998-1009 | after any history the sweep removes no row a survivor depends on and exactly the blocks of the removed rows |
| History.CrashConsistency | src/indexer.cpp:693-721 | at every statement boundary a row with a digest describes one version of its file that a pass could see: time, size, digest and, unless empty, blocks; excluded are only `modified_only` passes that see at time zero a file an earlier pass saw at another time, and sweeps committed after a first DELETE that took the blocks of a row with a digest |
| History.ZeroTimeExactly | src/indexer.cpp:823-824 | the one hole: for a file not seen at time zero before, digests stay truthful at every boundary of the visit, whatever it delivers, if and only if its time is not zero or the stored time is |
| History.ZeroTimeBreaks | src/indexer.cpp:823-824 | any version at time zero of another size than the stored one shows the hole |
| History.HalfSweepExactly | src/indexer.cpp:991-1006 | the other hole: after a sweep committed with its first DELETE alone digests are truthful if and only if every unmarked row with a digest is that of an empty file, file sizes being what files deliver |
| History.HalfSweptPassExactly | src/indexer.cpp:645-1015 | the same for every boundary of a pass that ends so |
| Incremental.StoredTimeMeansRecorded | src/indexer.cpp:822-836 | after `modified_only` histories, a row with the file's current time records the file as it is |
| Incremental.TouchSufficesExactly | src/indexer.cpp:822-826 | touching equals reading again if and only if the row already records the file |
| Incremental.NodeAgrees | src/indexer.cpp:956-970 | a fast and a full visit leave the same tables |
| Incremental.VisitAgrees | src/indexer.cpp:913-971 | a fast and a full callback leave the same tables and the same cache |
| Incremental.FastEqualsFull | src/indexer.cpp:645-1015 | after any history of `modified_only` passes, cut off anywhere, a fast pass ends with the same rows and blocks as a full one, if two sightings of a path with one time show one version, no path returns to a time it has left, no sweep was committed after a first DELETE that took the blocks of a row with a digest, and in the two passes reads succeed and no accessible entry, file or directory, has time zero |
| Current.ScanRecords | src/indexer.cpp:911-973 | what a full scan has read and recorded, the rest of the scan leaves alone |
| Current.FullPassIsUpToDate | src/indexer.cpp:645-1015 | after a full pass that sweeps, every file it read to the end is recorded as it was read: path, kind, time, size, digest, blocks |
| Current.FastPassIsUpToDate | src/indexer.cpp:645-1015 | the same for a `modified_only` pass, under the conditions of `FastEqualsFull` |
| Losses.NothingLost | src/indexer.cpp:645-1015 | with nothing lost a run is the plain one |
| Losses.ScanConcat | src/indexer.cpp:911-973 | a scan, with what it loses, can be taken in two parts |
| Damage.EntryLossExactly | src/indexer.cpp:822-844 | `update_entry` returns the rowid of a marked row that spells the path if and only if its row is written and found, or was there before and is touched or marked already |
| Damage.NoRowBlocks | src/indexer.cpp:749-771 | blocks written for rowid 0 break the ownership of blocks if and only if one of their INSERTs is carried out |
| Damage.CallbackExactly | src/indexer.cpp:913-971 | integrity at every boundary of a callback and agreement of `parents` after it hold if and only if what it loses, INSERTs or the rowid of a new row, is harmless |
| Damage.ScanExactly | src/indexer.cpp:911-973 | the same for a whole scan, callback by callback |
| Damage.HarmlessPass | src/indexer.cpp:645-1015 | a pass that loses nothing harmful keeps integrity at every boundary, however it ends |
| Damage.HistoryExactly | src/indexer.cpp:645-1015 | the same for whole histories; of a pass that was cut off, both sides speak of the scan it was making, statements not reached included |
| LostDigests.BlocksLeft | src/indexer.cpp:749-771 | the block rows left when some INSERTs of blocks are lost |
| LostDigests.BlockLossExactly | src/indexer.cpp:760-770 | the block rows describe the file if and only if no INSERT was lost but, at most, that of a first block whose row was right already |
| LostDigests.RecordedExactly | src/indexer.cpp:956-970 | the tables record the file after the visit if and only if its columns were written, and the row found, or were right already, and no block that mattered was lost |
| LostDigests.BlockLossTruthExactly | src/indexer.cpp:760-770 | crash consistency holds at every boundary of the visit if and only if no block that mattered was lost |
| LostDigests.EntryLossTruthExactly | src/indexer.cpp:828-843 | at a time new to the path, digests stay truthful whatever the file holds, unless and only unless the INSERT of an entry that had a row is lost; losing a new row, or its rowid, spoils none |
| Flaws.StaleKind | src/indexer.cpp:822-826 | two passes after which a directory has the row of a file |
| Flaws.StaleBlocks | src/indexer.cpp:891-903 | two passes after which an emptied file has its old block row |
| Flaws.LyingDigest | src/indexer.cpp:823-824 | two passes after which a row carries a digest that describes no version of the file |
| Flaws.HalfSweep | src/indexer.cpp:991-1006 | two passes, the second failing in its sweep, after which a row has time and digest but no block row, and a fast and a full pass differ |
| Flaws.MissingBlock | src/indexer.cpp:760-770 | a pass that loses the INSERT of a block leaves a digest without it |
| Flaws.StrayBlock | src/indexer.cpp:828-843 | a pass that loses the row of a new file stores its block under rowid 0 |
| Flaws.MisplacedChild | src/indexer.cpp:828-844 | a pass that loses the INSERT of a directory, or its rowid after it, stores its file as a root |
| Flaws.LockedFolder | src/indexer.cpp:921-936 | an accessible file in a directory that fails the access check: every pass throws and changes nothing |
| Recovery.LossyHistorySane | src/indexer.cpp:645-1015 | whatever passes lose and however they end, keys stay unique and a block row belongs to a row or to rowid 0 |
| Recovery.CleanPass | src/indexer.cpp:911-1014 | over any rows none of which is marked, a complete pass that loses nothing leaves one row for each path of the tree and no other |
| Recovery.Recovers | src/indexer.cpp:645-1015 | so after any history, whatever it lost, one pass that gets through its sweep and one complete pass that loses nothing leave exactly the rows of the tree; the tables are integral again if and only if no blocks are stored under rowid 0 and the root's row is a root's |
| Recovery.StrayBlocksStay | src/indexer.cpp:998-1006 | passes that lose nothing, however many and however they end, leave the blocks under rowid 0 as they are |
| Database.ApplyKeepsKeys | src/indexer.cpp:662-671 | no statement can make two rows share a key |
| Database.UpdateIsOneRow | src/indexer.cpp:693-705 | an UPDATE of all matching rows, with the mark 0, kind, size and block size as bound and the digest NULL, and every other column, the time included, as it was, is the update of the one row found by key |
| Database.Connection.Select | src/indexer.cpp:810-820 | rowid and time of the row with the key, zero for none, zero for a NULL time; an error stops the pass |
| Database.Connection.Reread | src/indexer.cpp:841-842 | the same SELECT with exceptions off: after an error the pass goes on with rowid 0 |
| Database.Connection.Insert | src/indexer.cpp:828-831 | run with exceptions off: a conflict is reported exactly when the key is taken and then nothing changes; otherwise a fresh nonzero rowid; any other error is not reported, nothing is written and the caller goes on |
| Database.Connection.BlockInsert | src/indexer.cpp:760-766 | the same for the row of a block |
| Database.Connection.Update | src/indexer.cpp:693-705 | the columns named in the SET clause as bound, NULL for zero, the mark 0 and the digest NULL, for the row with the key; its time stays as it was |
| Database.Connection.CleanupEntries | src/indexer.cpp:991-1011 | the two deletes and the update are one step; when one of them throws, those before it are committed by the destructor; nothing is left if the COMMIT fails or the process dies |
| Indexer.ReadPadded | src/indexer.cpp:882-895 | whatever the reused buffer held, after read and clear it holds the chunk followed by zeros |
| Indexer.DirectoryIndexer.UpdateBlockDigest | src/indexer.cpp:749-771 | insert, then update only after a conflict; nothing at all if the INSERT is lost |
| Indexer.DirectoryIndexer.StoreBlock | src/indexer.cpp:895-903 | the digest of the padded block goes to its row, unless lost, and higher rows go away |
| Indexer.DirectoryIndexer.UpdateBlocks | src/indexer.cpp:847-909 | the loop runs the block statements in order, feeds the file context the same blocks, and says whether the file was read to its end |
| Indexer.DirectoryIndexer.UpdateFile | src/indexer.cpp:958-970 | the closing statement runs only after a successful read, with the digest of all blocks fed |
| Indexer.DirectoryIndexer.UpdateEntry | src/indexer.cpp:773-845 | the statements and the results of `update_entry`, rowid and old time; rowid 0 if the INSERT of a new row, or the SELECT after it, fails |
| Indexer.DirectoryIndexer.Manipulate | src/indexer.cpp:913-971 | the callback runs the statements of the model for what it lost, or a prefix if a statement throws, and updates `parents` as the model does |
| Indexer.PreorderReadable | src/indexer.cpp:612-629 | every reported file of a well-formed tree can be read as the loop expects |
| Indexer.DirectoryIndexer.ReadTree | src/indexer.cpp:911-973 | traversal and callbacks together run a scan of a prefix of the preorder, or part of one |
| Indexer.DirectoryIndexer.Reindex | src/indexer.cpp:645-1015 | whatever fails, the statements run are those of one run that loses what SQLite refused with exceptions off, and the tables what that run makes of them; if nothing was lost it is a run of module `Pass`; it ends normally exactly if it gets through its sweep; it sweeps without having met every entry only after an abort or where a directory had vanished; with nothing failing it is complete |
| Indexer.HistoryGrows | src/indexer.cpp:645-1015 | a pass over the tables of a history leaves the tables of a history one longer |
| FileDigest.ChunksAreSlices | src/indexer.cpp:877-906 | if only the last read is short, the reads are ceil(size / 4096) slices of the file |
| FileDigest.BlockByte | src/indexer.cpp:891-899 | a padded block has 4096 bytes, and byte j of block i is byte 4096 * i + j of the file or, behind its end, zero |
| FileDigest.BlocksCover | src/indexer.cpp:877-906 | 4096 times the number of blocks is the size and the zeros that complete the last block, fewer than 4096 |
| FileDigest.FileDigestIsPadded | src/indexer.cpp:905-905 | the file digest is the one-shot digest of the file padded with zeros to a multiple of 4096 |
| FileDigest.FileRecorded | src/indexer.cpp:847-970 | a nonempty file read to its end has blocks 1..ceil(size / 4096), each the digest of its padded slice, its own row and no other changed |
| FileDigest.BlockRowsExactly | src/indexer.cpp:891-903 | the block rows describe the file after a visit if and only if it is nonempty or had none before |
| FileDigest.DeliveryIsIrrelevant | src/indexer.cpp:882-906 | the recorded digests depend on the content alone |
| Mixing.LineReversible | src/cdc512.cpp:34-41 | each line of `shuffle()` can be undone, in both orders |
| Mixing.LineWithReversible | src/cdc512.cpp:64-71 | each line of `shuffle(v)` can be undone, for any v |
| Mixing.MixReversible | src/cdc512.cpp:32-42 | `shuffle()` is a bijection on eight words |
| Mixing.MixWithReversible | src/cdc512.cpp:44-72 | `shuffle(v)` is a bijection on eight words for any v |
| Mixing.Mix32Reversible | include/rand.hpp:262-276 | the 32-bit `shuffle` is a bijection on eight words |
| Shuffles.MixIs | src/cdc512.cpp:34-41 | `shuffle()` is the eight lines of the source on eight named words |
| Shuffles.MixWithIs | src/cdc512.cpp:64-71 | `shuffle(v)` likewise |
| Shuffles.Mix32Is | include/rand.hpp:268-275 | the 32-bit `shuffle` likewise |
| Cdc512.SwapTwice | include/cdc512.hpp:70-108 | the 64-bit byte swap undoes itself |
| Cdc512.SwapTwice32 | include/cdc512.hpp:38-68 | the 32-bit byte swap undoes itself and is the byte reversal |
| Cdc512.SwapReverses | include/cdc512.hpp:100-108 | byte k of the swapped word is byte 7 - k of the word |
| Cdc512.LoadStore | include/cdc512.hpp:112-126 | the memory view of a word gives the word back |
| Cdc512.StoreLoad | include/cdc512.hpp:112-126 | eight bytes read as a word give the bytes back |
| Cdc512.AbsorbReversible | src/cdc512.cpp:92-94 | taking in a block can be undone, in both orders |
| Cdc512.UpdateReversible | src/cdc512.cpp:88-108 | for any fixed data `update` is a bijection on the eight words |
| Cdc512.AbsorbSplit | src/cdc512.cpp:92-97 | data can be split after any whole number of 64-byte chunks |
| Cdc512.TailIsPadded | src/cdc512.cpp:99-107 | a ragged tail changes the words exactly as its zero-padded form does |
| Cdc512.SplitIndependent | src/cdc512.cpp:88-108 | pieces that are whole chunks except the last give the words and count of one update with their concatenation |
| Cdc512.DigestIsBigEndian | src/cdc512.cpp:119-126 | the digest bytes are the words in big-endian order |
| Cdc512.DigestInjective | src/cdc512.cpp:119-126 | the digest determines the words |
| Cdc512.DigestTellsWords | src/cdc512.cpp:110-127 | streams of one length have one digest if and only if they lead to the same words |
| Cdc512.SameSuffix | src/cdc512.cpp:88-127 | streams that agree after a 64-byte boundary have equal digests if and only if the words there were equal |
| Cdc512.Hash.Init | src/cdc512.cpp:74-86 | the start state |
| Cdc512.Hash.Shuffle | src/cdc512.cpp:32-42 | the eight lines of the source, in place, make the fields the mixed words of the model, for which the known answers are proved |
| Cdc512.Hash.ShuffleWith | src/cdc512.cpp:44-72 | so do the eight lines that mix in the data |
| Cdc512.EveryCount | src/cdc512.cpp:90-117 | the byte counts are the values of `uint64_t`, and `finish` mixes in the count eight times |
| Cdc512.Hash.Update | src/cdc512.cpp:88-108 | the loop and the padded tail absorb all the data, and the count grows modulo 2^64 |
| Cdc512.Hash.Finish | src/cdc512.cpp:110-127 | the count is mixed in unless it is zero, and the digest is set from the words |
| Cdc512.Hash.Flush | include/cdc512.hpp:142-170 | the one-shot digest |
| Cdc512.Hash.ToString | src/cdc512.cpp:129-149 | 159 characters from which the digest can be read back |
| Cdc512.HexRoundTrip | src/cdc512.cpp:140-148 | the dashed hexadecimal form is invertible |
| Cdc512.Hash.ToShortString | src/cdc512.cpp:151-167 | the digit runs of the eight words, last word first |
| Cdc512.DigitsRead | src/cdc512.cpp:160-163 | a digit run decodes to its number, and is no longer than the number needs |
| Cdc512.WordDigits | src/cdc512.cpp:155-163 | a word takes at most 12 characters and can be read back |
| Vectors.FirstAnswer | tests/cdc512_test.cpp:60-60 | the digest of the bytes 0, 1, ..., 239, printed, is the string the test expects |
| Vectors.SecondAnswer | tests/cdc512_test.cpp:63-63 | so is that of the same bytes with bit 6 of byte 3 flipped |
| Vectors.EmptyAnswer | src/cdc512.cpp:74-127 | the digest of nothing is the eight initial constants as the source has them |
| Vectors.Alphabet | src/cdc512.cpp:155-163 | the digit for k is character k of the alphabet |
| Vectors.LastDigitFirst | src/cdc512.cpp:160-163 | a run begins with the last digit of its number in base 50 |
| Vectors.LastWordFirst | src/cdc512.cpp:156-164 | the short form of a digest begins with the run of its last word, and zero words print nothing |
| Isaac.PartnerIsModular | include/rand.hpp:205-218 | the two pointer loops pair slot i with slot (i + N/2) mod N |
| Isaac.StepUndone | include/rand.hpp:173-182 | `rngstep` can be undone even when a self-indexed read hits the slot being written |
| Isaac.StepRedone | include/rand.hpp:173-182 | every state is the result of a step |
| Isaac.BatchReversible | include/rand.hpp:196-227 | a batch is a bijection on memory, a, b and c when the line mixes can be undone |
| Isaac.BatchForgets | include/rand.hpp:229-260 | states whose first mix agrees merge in the next batch |
| Seeding.SeededInjective | include/rand.hpp:134-157 | with at least two groups the two passes map seeds to memories injectively |
| Seeding.OneGroupCollides | include/rand.hpp:147-157 | with a single group two seeds collide |
| Seeding.SeedingExactly | include/rand.hpp:134-157 | seeding loses nothing if and only if there is more than one group |
| Generator.SeededMemInjective | include/rand.hpp:116-171 | the same for the memory as one array |
| Generator.SeedWordsInjective | include/rand.hpp:78-87 | distinct (a, b, c) give distinct states |
| Generator.FullSeedInjective | include/rand.hpp:89-101 | distinct full-length seeds give distinct states |
| Generator.SeedLengthExactly | include/rand.hpp:89-92 | seeds of one length give distinct states if and only if they fill the buffer |
| Generator.BufferPosition | include/rand.hpp:69-76 | where `get` stands in the buffer after any number of calls |
| Generator.Standing | include/rand.hpp:69-76 | before call q * N + r the buffer holds batch q with N - r words left, or the batch before with none |
| Generator.NthGet | include/rand.hpp:69-76 | call q * N + r returns slot N - 1 - r of batch q |
| Generator.Rand.NextLine | include/rand.hpp:209-224 | a line of a pointer loop makes one step of the recurrence and writes one result |
| Generator.Rand.RngStep | include/rand.hpp:173-178 | one step in place is one step of the recurrence, with all reads in bounds |
| Generator.Rand.Half | include/rand.hpp:209-214 | each pointer loop makes N/2 steps of the one indexed recurrence |
| Generator.Rand.Isaac | include/rand.hpp:196-260 | a batch in place: memory, results, a, b and c as the recurrence gives them |
| Generator.Rand.Pass | include/rand.hpp:137-145 | a seeding pass in place, also over the array it writes |
| Generator.Rand.RandInit | include/rand.hpp:116-171 | two passes and a first batch: memory, results, a, b and c, with the buffer full |
| Generator.Rand.SrandWords | include/rand.hpp:78-87 | seeding from three words: the generator state, the buffer of the first batch, and none of it used yet |
| Generator.Rand.SrandData | include/rand.hpp:89-101 | the same from a buffer, with the clearing and the mixing of its front |
| Generator.Rand.Get | include/rand.hpp:69-76 | the next word of the stream, and the count within 0..N |
| Widths.ReadsInBounds32 | include/rand.hpp:180-182 | the masked byte offset is a whole number of words, and the word lies within the memory |
| Widths.ReadsInBounds64Exactly | include/rand.hpp:184-186 | the 64-bit reads stay within the memory if and only if the mask fits an `int`: ALPHA up to 28 |
| SlotNumbers.SlotIs32 | include/rand.hpp:174-182 | `ind(mm, x)` reads slot x / 4 modulo N |
| SlotNumbers.HighSlotIs32 | include/rand.hpp:177-182 | `ind(mm, y >> ALPHA)` reads slot y / (4 N) modulo N |
| SlotNumbers.SlotIs64 | include/rand.hpp:174-186 | the 64-bit `ind(mm, x)` reads slot x / 8 modulo N |
| SlotNumbers.HighSlotIs64 | include/rand.hpp:177-186 | the 64-bit `ind(mm, y >> ALPHA)` reads slot y / (8 N) modulo N |
| Widths.Lawful32 | include/rand.hpp:180-214 | 32-bit words meet every law of the generic generator, and their line mixes can be undone |
| Widths.Isaac32Reversible | include/rand.hpp:196-227 | the 32-bit generator never merges two states, for every ALPHA |
| Widths.SeedData32Exactly | include/rand.hpp:89-101 | 32-bit seeds of one length give distinct states if and only if they fill the buffer |
| Widths.SeedWords32 | include/rand.hpp:78-87 | distinct (a, b, c) give distinct 32-bit states |
| Widths.Seeding32Exactly | include/rand.hpp:134-157 | 32-bit seeding loses nothing if and only if there is more than one group |
| Widths.Lawful64 | include/rand.hpp:184-194 | 64-bit words meet the laws of the generic generator |
| Widths.Seeding64Exactly | include/rand.hpp:134-157 | 64-bit seeding loses nothing if and only if there is more than one group |
| Widths.Isaac64Merges | include/rand.hpp:243-246 | every 64-bit state has a twin that the next batch merges it with |
| GeneratorVectors.Srand000 | include/rand.hpp:69-87 | with 32-bit words and ALPHA 3 the first `get` after `srand(0, 0, 0)` is 0xB2026F4F |
| GeneratorVectors.Srand123 | include/rand.hpp:69-87 | after `srand(1, 2, 3)` it is 0xDA4D98ED |
| GeneratorVectors.SrandData | include/rand.hpp:89-101 | after `srand` from the words 1 to 8 it is 0x6FDCFAA0, whatever the buffer held |
| GeneratorVectors.Wide000 | include/rand.hpp:229-294 | with 64-bit words it is 0xA8F79F83EE8D8D7D after `srand(0, 0, 0)` |
| Tracker.InvariantHolds | src/tracker.cpp:66-86 | every step of worker and owner keeps flag, thread, connection and positions in agreement |
| Tracker.OneLateReindexAtMost | src/tracker.cpp:66-84 | in every interleaving at most one reindex starts after the flag is set, and one exactly if the worker was past its last look at it |
| Tracker.ReturnsAfterExit | src/tracker.cpp:140-149 | `shutdown` returns only when the worker is gone, its connection closed |
| Tracker.ShutdownTwice | src/tracker.cpp:142-143 | a repeated `shutdown` changes nothing |
| Tracker.NeverStuck | src/tracker.cpp:76-84 | while `shutdown` joins, the worker has a step to make or the join ends, lost notifications included |
| Tracker.JoinIsBounded | src/tracker.cpp:66-86 | a measure falls with every step, so the join ends after a bounded number of them |
| Tracker.DeadlineStartsReindex | src/tracker.cpp:66-83 | a worker whose wait ends at the deadline with the flag unset next starts a reindex |
| Tracker.WorksAgain | src/tracker.cpp:66-83 | from every reachable state with a thread and the flag unset, steps of the worker alone lead to a further reindex over an open connection |
| Tracker.NextStartIsBounded | src/tracker.cpp:76-83 | it cannot put that off beyond a bounded number of steps, except by waking up early |
| Tracker.ThrowDisconnects | src/tracker.cpp:71-74 | a reindex that throws leaves no connection behind |
| Tracker.RunStartsThread | src/tracker.cpp:136-137 | from every reachable state without a thread `run` starts one, with the flag unset, also after a `shutdown` |
| Tracker.ShutdownReturns | src/tracker.cpp:140-149 | from every reachable state with a thread `shutdown` can return, with the thread and its connection gone |
| StrReplace.Search | include/std_ext.hpp:44-44 | the leftmost match from a position, or the end |
| StrReplace.Replace | include/std_ext.hpp:36-55 | the loop ends for every nonempty pattern and returns the pieces joined by the replacement |
| StrReplace.EmptyPatternStays | include/std_ext.hpp:43-51 | with an empty pattern and a subject left the loop does not advance |
| StrReplace.PiecesAreLeftmostSplit | include/std_ext.hpp:43-53 | the pieces are a split at matches none of which could begin earlier |
| StrReplace.LeftmostSplitIsOne | include/std_ext.hpp:43-53 | there is one such split |
| StrReplace.ReplaceJoinsTheSplit | include/std_ext.hpp:43-55 | any leftmost split, joined by the replacement, is the result |
| StrReplace.ReplaceBySelf | include/std_ext.hpp:43-55 | replacing a pattern by itself is the identity |
| StrReplace.ReplaceLength | include/std_ext.hpp:43-55 | the length changes by matches times the difference of the lengths |

## Left out

- SQLite itself: a statement is atomic and does what its text says, or fails and does nothing; binding a value does not fail. When the COMMIT of the sweep fails, the transaction is taken to be rolled back, as it is when the tracker closes the connection after an exception.
- A connection on which the caller has switched exceptions off; the tracker has them on.
- `Damage.HarmlessPass`: for a pass that is cut off, in one direction only: a loss that would have done harm after the cut does none.
- `Damage.HistoryExactly`: a pass that was cut off is judged by the scan it was making, not by the part of it that ran.
- `Recovery.Recovers`: which rows there are and how they hang together, not what they hold: a row left astray keeps its columns, and a directory that gets the rowid of its lost parent adopts it with them.
- The tree changing during a pass: a pass sees one snapshot. A directory that has vanished when it is opened is covered, since the reader then returns early and the sweep still runs.
- `Indexer.DirectoryIndexer.ReadTree`: collects the reported entries first and handles them afterwards; on a snapshot this is the same as handling each when it is reported, because a callback affects the traversal only by stopping it.
- `Tree.Preorder` is for `list_dot_` and `list_dotdot_` off, as `reindex` has them; the POSIX branch of `read` does not compile as written and is left out.
- Paths are sequences of components; UTF conversion, FILETIME arithmetic, regular expressions, access rights and the file system are parameters.
- `Incremental.FastEqualsFull`: no full passes in the history, because an interrupted full pass can leave a NULL digest beside a current time; no read errors and no time zero, directories included, in the two passes compared.
- `History.CrashConsistency`: block rows of empty files, of files truncated to nothing and of paths that became directories are not described; `FileDigest.BlockRowsExactly` says when they are right.
- Times and sizes are unbounded; the 64-bit wrap of `mtime * 1000000000` is not modelled. Integers that wrap in the digest and the generator are bit vectors.
- `Generator.Rand.SrandData`: seeds are whole words; `memcpy` of a partial word is left out, as is an uninitialised generator and `bUseSeed == false`, which nothing calls.
- Big-endian hosts, where the byte swaps are the identity.
- `to_short_string` as a whole is not injective (the runs are not separated), so only its runs are shown invertible.
- `Tracker`: a second `run` while a thread exists, which ends the program; the time the deadline takes; the C++ memory model (`shutdown_` is an atomic flag here). A reindex takes at most a given number of steps.
- `path2rel`, `mkdir`, name building in `run`, `stream_copy_n`, `copy_eof`, temporary names, home and current directories, the Qt program.
- Cryptographic strength of the digest and the generator.
