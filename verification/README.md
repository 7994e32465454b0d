# SlipScan: crash safety, dates, text formats and state machines

SlipScan keeps its books in one folder: an SQLite database and a store of documents. A pointer file in
a fixed config directory says which folder is current. Moving that folder is the most delicate thing
the program does, and most of this project is about it. The rest models the other parts of SlipScan
whose correctness is not visible from one function body: recurring dates, the CSV exports, the brace
scanner of the repository's own checks, the migration runner and the extraction run.

`dafny verify dfyconfig.toml` checks everything.

## How it is laid out

- `Paths`, `Books`, `Disk`: folder paths and their prefix algebra; the database as rows, a write-ahead
  log as overrides, and what a row says to the user wherever the folder is; a file system in which
  every file has a current content and a set of contents it may have after a power cut. A rename or a
  removal leaves that set open until the directory is synced, a write until the file is.
- `Move`: the data-folder move as a step machine, one file operation a step, with crashes, power cuts
  and other processes opening, committing and closing in between. `MoveInvariant` and `MoveWorld` prove
  one inductive invariant for every step; `MoveFrames` says which files a step may change.
- `MoveRuns`: whole runs, and exactly what a power cut may take. `MoveForeign`: databases the move did
  not make. `MoveResume`: from which crashes and power cuts a move can be started again. `MoveHazards`,
  `MoveStale` and `MoveUnfolded`: what goes wrong where the assumptions do not hold.
- `MoveFiles`, `MoveSteps`, `DataDir`: the code of the move as the methods of a class, operation by
  operation, each proved to walk a run of the machine. The order of the operations is that of the
  machine's phases; what is on disk at each milestone stands in the methods' contracts.
- `Calendar`, `DateText`, `Digits`, `Recurrence`: the proleptic Gregorian calendar, dates as text, and
  occurrences of a schedule.
- `Csv`, `Reports`: the printer, a reader for section 2 of RFC 4180 that also takes a bare line feed,
  and the exporters.
- `Lexemes`, `BlockLexer`, `BlockRewrite`, `TestMods`: tokens, the block scanner, what rewriting a
  token does to it, and the removal of test modules.
- `Migrations`, `Opener`: any number of openers racing to migrate one file, and one opener's call with
  the others at work between its operations.
- `Extraction`, `Extractor`: what an extraction run does to the documents, and the loop that does it.

## Where the code falls short of its documentation

For each, the input that shows it and the condition that decides it are proved.

1. The header of `datadir.rs` (lines 15-21) calls losing power at any point safe. Two things stand
   against it and, under the assumptions below, nothing else (`MoveRuns.PowerCutTakesExactlyRowsAtRisk`).
   Connections run with `synchronous = NORMAL` (`crates/slipscan-core/src/db.rs`, lines 149-152), so a
   commit is not on disk when it returns; stored documents are not synced at all
   (`crates/slipscan-ingest/src/email/mod.rs`, line 257). That is so without any move, and the move adds
   nothing to it: taking the lock forces all rows down (`MoveRuns.LockingSyncs`), and no step of the move
   puts a row or a document at risk (`MoveRuns.OnlyCommitsPutRowsAtRisk`,
   `MoveRuns.OnlyCommitsLoosenPapers`).
   And between the pointer's rename and the sync of its directory the new folder is resolved but not
   locked; a commit made there is lost if the rename comes back undone, synced or not
   (`MoveRuns.WindowCommitIsLost`).
2. A crash while the copy is being localised leaves `slipscan.db.partial-wal`. The next run copies a
   fresh main file under it and SQLite replays the old log over it. A process crash leaves such a log
   exactly in that pass (`MoveResume.CrashIsResumableExactlyOutsideLocalising`); a power cut can bring
   one back until the target directory is synced, since closing the copy removes it without a sync
   (`MoveResume.PowerCutIsResumableExactly`, `MoveResume.ClosedLogMayReturn`,
   `MoveResume.LogMayReturnUntilTheSync`). It costs a commit made in between:
   `MoveStale.StaleLogLosesACommit`.
3. A resumed run removes its earlier copy without syncing the directory and then replaces the journal
   that vouched for it. A power cut can bring the copy back, now refused as foreign, exactly while the
   removal is not on disk (`MoveResume.VouchedExactlyWhenTheRemovalIsDurable`); every resumed run gets
   there unless the kernel writes that entry back (`MoveResume.RemovalStaysPending`,
   `MoveResume.ResumedRunCanBeRefused`).
4. Validation and cleaning of the target happen before the lock is taken, and the target's database is
   hashed in between. `MoveHazards.SecondMoverRemovesExactly` says exactly when a second mover to the
   same target validates a database there that it goes on to remove. The books are destroyed whenever
   the removal lands on the first mover's finished copy (`MoveHazards.SecondMoverDestroysTheBooks`), and
   still when it lands after the swap, on the database already in use
   (`MoveHazards.RemovalAfterTheSwapEmptiesTheBooks`, `MoveHazards.RemovalAfterTheSwapDestroysTheBooks`).
5. The lock is dropped before the old database is deleted, so resolving and opening have to be one
   step: `MoveHazards.OldFolderOpensExactlyWhenUnlocked`,
   `MoveHazards.CommitIsReadExactlyThroughThePointer`, `MoveHazards.LateOpenerLosesItsCommit`.
6. A current folder inside the documents store of the target is not refused, and then the move deletes
   what it wrote, exactly in that arrangement (`Paths.DisjointExactlyWhenNoClash`). Another folder inside
   the old documents store loses its database with it (`Paths.StoreDeletesExactlyWhatItContains`). The
   theorems about moves assume neither is the case.
7. `occurrence_date` promises the start date back unchanged for index zero (lines 42-43). A start
   spelled with a plus sign or as year -0000 comes back respelled: `Recurrence.IndexZeroIsTheStart`.
   Its products are unchecked: `Recurrence.ReleaseBuildIsExactWhen`,
   `Recurrence.WrappedOccurrenceIsTheStart`.
8. The block scanner says a character literal closes within a few characters. A lifetime directly
   before a string can find a quote inside it: `BlockRewrite.BoundaryKeptExactly`,
   `BlockRewrite.LifetimeSeesIntoTheString`.
9. Two processes opening one new file: the busy timeout does not help the one that read the migration
   rows first and writes second: `Migrations.FailsExactlyWhenOvertaken`, `Migrations.TheSlowerOpenerFails`.
   Its error is the same as that of a lock held past the timeout or of an I/O error
   (`Migrations.MigrationErrorsExactly`).
10. `extractor.rs` leaves unsupported documents pending (lines 7-8), and takes its batch from the pending
    ones (line 52). A run makes no progress if and only if its whole batch is unsupported
    (`Extraction.NoProgressExactlyWhenAllSkipped`), and then nothing behind that batch is ever reached:
    `Extraction.SkippedDocumentsStarveTheRest`.
11. The audit row of the move is said to land in the database that is current after the swap
    (`datadir.rs`, lines 652-653), and the stored paths with it (lines 623-625). Both are in the copy's log
    until the copy is closed, and closing it has no result: if the checkpoint fails, the log stays behind
    and the move goes on with the main file alone. The call then succeeds without having completed, if
    and only if the log left holds something the main file does not
    (`DataDir.DataFolder.MoveDataDir`, `MoveSteps.LogMattersExactly`). The log beside the copy gives it
    away before the journal is written (`MoveUnfolded.LeftLogIsRecognised`); after the swap the books are
    what the main file says (`MoveUnfolded.UnfoldedRunEnds`), and documents go by the path of the
    deleted store (`MoveUnfolded.UnfoldedRowNamesTheOldStore`).

## What the move's theorems assume

`Move.Assumed`, `Move.WorldEnabled` and the preconditions of the theorems state these.

- SHA-256 has no collisions: `Sha256` wraps the content it is taken of.
- SQLite's exclusive lock excludes every other handle. After a power cut a log may be in any state it
  was in since it was last synced, none of them torn; a checkpoint leaves main file and log durable.
- Closing the copy folds its log into the main file and removes it.
- A process resolves the pointer and opens the database in one step.
- One move runs at a time, and nobody else writes into its target meanwhile.
- No folder that may be resolved, nor the target, nor the config folder lies in the documents store of
  one of the others (`Placed`; `IdentityIsPath` is what it gives).
- No stale log lies beside the partial or the final name at the target (`Assumed`, for `Begin`).
- No document stored in place already lies in the target's documents store (`NoCapture`).
- `sync_all` makes a file's creation and content durable; a rename or removal is durable only once its
  directory is synced; writing a file is not atomic. The code never syncs the target's documents
  directories, so the copied documents rest on the first of these (`Disk.CopiesRestOnTheEntry`). So does
  everything below a directory the move creates: the target folder itself, whose parent is never
  synced, its documents store, and the directories in that.
- Other processes add documents under fresh names. A row a transaction writes says something new; rows
  are added and changed, not deleted. A log written back by the kernel stands for checkpoints by others.
- An audit id is new (`FreshId`).

## Model

| member | source | states |
|---|---|---|
| MoveWorld.StepKeeps | crates/slipscan-core/src/datadir.rs:421-759 | One step of the move, of another process, a crash or a power cut, in any state, keeps the inductive invariant, under the assumptions listed above; that closing the copy folds its log is one of them. |
| MoveRuns.InstallationsMeetTheInvariant | crates/slipscan-core/src/datadir.rs:160-167 | Every installation that never moved meets the invariant, its last commits on disk or not, so the theorems about runs apply to it, whatever other folders hold. |
| MoveRuns.EveryRunIsSafe | crates/slipscan-core/src/datadir.rs:10-21 | In every state of every interleaving in which closing the copy folds its log, power cuts at any time included, the resolved folder has a whole database under its final name that says what the books say, and every stored document; a power cut leaves of the books what the rows below say. |
| MoveRuns.PowerCutTakesExactlyRowsAtRisk | crates/slipscan-core/src/datadir.rs:15-21 | A power cut may take or change a row if and only if it was committed since the log of the resolved folder last reached the disk, or changed since a rename of the pointer that has not. The header promises safety unconditionally. |
| MoveRuns.PowerCutTakesExactlyLoosePapers | crates/slipscan-core/src/datadir.rs:15-21 | A stored document comes through every power cut with its bytes if and only if it is on disk in every folder the pointer may come back to. |
| MoveRuns.OnlyCommitsPutRowsAtRisk | crates/slipscan-core/src/datadir.rs:421-759 | Only a commit ever puts a row at risk: no step of the move does, nor opening, closing, syncing or a power cut that leaves the row. |
| MoveRuns.OnlyCommitsLoosenPapers | crates/slipscan-core/src/datadir.rs:421-759 | Nor does anything else put a stored document at risk: once on disk it stays so in every folder the pointer may come back to, through copying, the swap and the deletion. |
| MoveRuns.LockingSyncs | crates/slipscan-core/src/datadir.rs:564-598 | Taking the lock and folding the log forces every committed row down before the copy starts. |
| MoveRuns.SwapRisksNothing | crates/slipscan-core/src/datadir.rs:191-199 | Right after the rename of the pointer every row survives every power cut, whichever way the rename comes back. |
| MoveRuns.CommittedRowsSurvive | crates/slipscan-core/src/datadir.rs:702-759 | Between any two points of a run a committed row reads the same, with the same meaning, unless a later transaction rewrites it or power is cut while it is at risk. |
| MoveRuns.StoredPapersSurvive | crates/slipscan-core/src/datadir.rs:702-759 | Likewise a stored document keeps its name and its bytes unless power is cut while it is not on disk. |
| MoveRuns.CommitIsReadable | crates/slipscan-core/src/datadir.rs:160-167 | A commit is read back through the resolved folder at once. |
| MoveRuns.OnlyTheSwapOpensTheWindow | crates/slipscan-core/src/datadir.rs:191-199 | Only the rename of the pointer makes two folders resolvable after a power cut. |
| MoveRuns.ConfigSyncClosesTheWindow | crates/slipscan-core/src/datadir.rs:203-212 | Syncing the config directory settles the pointer: no row is at risk from its rename any more. |
| MoveRuns.WindowCommitIsLost | crates/slipscan-core/src/datadir.rs:707-714 | From every state between rename and sync another process can open, commit, even sync its log, and lose the row to a power cut: the lock covers the old folder only. |
| MoveSteps.LogMattersExactly | crates/slipscan-core/src/datadir.rs:602-673 | Whatever a failing close of the copy leaves in the main file, opened with the log it is the whole copy, if it can be read; by itself it is if and only if the log adds nothing. |
| MoveUnfolded.LeftLogIsRecognised | crates/slipscan-core/src/datadir.rs:672-690 | A log stands beside the copy after a close that failed to fold it, and none after one that did; the code does not look before it writes the journal. |
| MoveUnfolded.UnfoldedIsSafeUntilTheSwap | crates/slipscan-core/src/datadir.rs:678-697 | With such a copy nothing is lost before the pointer is renamed. |
| MoveUnfolded.UnfoldedRunEnds | crates/slipscan-core/src/datadir.rs:707-714 | After the rename the resolved folder says what the main file says by itself: the books have come through if and only if that is what the copy says. |
| MoveUnfolded.UnfoldedRunExists | crates/slipscan-core/src/datadir.rs:678-714 | Nothing stops such a run before the rename. |
| MoveUnfolded.UnfoldedRowNamesTheOldStore | crates/slipscan-core/src/datadir.rs:630-650 | A stored document whose row was not folded is then named by its path in the old store, which the move goes on to delete. |
| MoveForeign.ForeignIsNeverVouchedFor | crates/slipscan-core/src/datadir.rs:371-402 | No journal, whole, torn, missing or from another move, vouches for a database the move did not make. |
| MoveForeign.ForeignIsRefused | crates/slipscan-core/src/datadir.rs:484-502 | A move onto a foreign database cannot start, and gets the refusal of its own once the target is otherwise acceptable. |
| MoveForeign.ForeignDatabasesAreNeverTouched | crates/slipscan-core/src/datadir.rs:484-502 | Over every run a foreign database outside the documents stores involved stays bit for bit what it was, unless someone writes that very file. |
| MoveForeign.ForeignPathIsNeverWritten | crates/slipscan-core/src/datadir.rs:729-744 | The same by path: whatever file a step of the move changes, it does not lie where the foreign database does. |
| MoveForeign.RefusalsExactly | crates/slipscan-core/src/datadir.rs:444-502 | Each of the four refusals stands for one thing about the two folders and the files in them: no database in the old folder, the same folder, a folder strictly below it, or a database that the journal does not vouch for with exactly this origin, destination and content. |
| MoveResume.CrashBeforeSwapValidates | crates/slipscan-core/src/datadir.rs:484-502 | After the process dies at any step before the swap, the window between final name and swap included, the same move passes validation, and readers see no change. |
| MoveResume.CrashIsResumableExactlyOutsideLocalising | crates/slipscan-core/src/datadir.rs:488-500 | It meets everything the move relies on, and so can simply be called again, if and only if the crash did not fall between the first re-pointed row and the closing of the copy. |
| MoveResume.PowerCutIsResumableExactly | crates/slipscan-core/src/datadir.rs:484-502 | Every power cut that leaves the pointer at the old folder can be resumed from if and only if no state of the partial log that may come back carries anything and the journal vouches for whatever may come back at the final name; at every step before the swap, resumed runs included. |
| MoveResume.FirstAttemptIsVouched | crates/slipscan-core/src/datadir.rs:678-697 | On a first attempt the journal always does. |
| MoveResume.ArrivedIsResumable | crates/slipscan-core/src/datadir.rs:690-697 | Once the copy has its final name durably, both conditions hold. |
| MoveResume.VouchedExactlyWhenTheRemovalIsDurable | crates/slipscan-core/src/datadir.rs:484-502 | While the journal is being replaced it does if and only if the removal of an earlier copy is on disk; the code does not sync it. |
| MoveResume.VouchedUntilTheJournal | crates/slipscan-core/src/datadir.rs:516-551 | Up to there no step of a resumed run gives up what the journal vouched for. |
| MoveResume.CleaningLeavesTheRemovalPending | crates/slipscan-core/src/datadir.rs:488-495 | Every resumed run makes such a removal pending. |
| MoveResume.RemovalStaysPending | crates/slipscan-core/src/datadir.rs:488-697 | It stays pending through every step of anyone up to the sync of the target directory, unless the kernel writes that one entry back. |
| MoveResume.ResumedRunCanBeRefused | crates/slipscan-core/src/datadir.rs:484-502 | So whenever a resumed run comes to replacing its journal, whatever others did meanwhile, some power cut leaves a state the move cannot be started from again. |
| MoveResume.ClosedLogMayReturn | crates/slipscan-core/src/datadir.rs:602-673 | Right after the copy is closed a power cut can bring back the log just removed, on a first attempt too. |
| MoveResume.LogMayReturnUntilTheSync | crates/slipscan-core/src/datadir.rs:678-697 | It can until the target directory is synced. |
| MoveResume.FoldersStayApart | crates/slipscan-core/src/datadir.rs:454-468 | The arrangement of folders a run assumed when it began holds up to the swap. |
| MoveSteps.CrashThenWorkIsReady | crates/slipscan-core/src/datadir.rs:484-502 | After such a crash and any opens, commits, closes and write-backs by others, the same move is still ready to be called. |
| MoveSteps.PowerCutThenWorkIsReady | crates/slipscan-core/src/datadir.rs:484-502 | So it is after a power cut under the two conditions. |
| DataDir.DataFolder.Resume | crates/slipscan-core/src/datadir.rs:484-552 | Crash, other processes at work, the same call again: it succeeds if and only if nobody is left with the database open, and the new folder then holds the localised image of the content as it is at the second call. |
| MoveHazards.SecondMoverRemovesExactly | crates/slipscan-core/src/datadir.rs:484-507 | At the moment of its validation a second mover to the same target finds a database there that it goes on to remove exactly while the first is cleaning its earlier copy or its finished copy stands at the final name before the swap: validation and cleaning come before the lock. |
| MoveHazards.SecondMoverDestroysTheBooks | crates/slipscan-core/src/datadir.rs:702-744 | If the removal lands in any of the latter states, the first mover then swaps, reads back and deletes the source, and neither folder has a database. |
| MoveHazards.RemovalAfterTheSwapEmptiesTheBooks | crates/slipscan-core/src/datadir.rs:484-502 | If it lands later, the resolved folder has no database from that moment on. |
| MoveHazards.RemovalAfterTheSwapDestroysTheBooks | crates/slipscan-core/src/datadir.rs:725-737 | And as long as the old main file is still there, the first mover goes on to delete that too. |
| MoveHazards.OldFolderOpensExactlyWhenUnlocked | crates/slipscan-core/src/datadir.rs:725-728 | A process that resolved earlier can open the old folder exactly while the move does not hold its lock, which it drops before deleting. |
| MoveHazards.CommitIsReadExactlyThroughThePointer | crates/slipscan-core/src/datadir.rs:160-167 | What a process commits is read back if and only if its folder is the resolved one. |
| MoveHazards.LateOpenerLosesItsCommit | crates/slipscan-core/src/datadir.rs:725-744 | So a handle opened once the deletion has begun, on what is left of the old database or on the new one `Db::open` makes in its place, commits where nobody will look. |
| MoveStale.StaleLogIsReplayed | crates/slipscan-core/src/datadir.rs:511-515 | A log left beside the partial name is replayed over the fresh copy; the copy reads as the source if and only if the log repeats the source. |
| MoveStale.StaleRunExists | crates/slipscan-core/src/datadir.rs:604-759 | Nothing stops such a run: it can be carried on to the swap from any point, a fresh audit id included. |
| MoveStale.StaleLogLosesACommit | crates/slipscan-core/src/datadir.rs:604-673 | Crash in the localising pass, a commit that changes a re-pointed row, the same move again: every step is allowed, the commit was read back, and after the swap the row says what it said before the commit. |
| Paths.DisjointExactlyWhenNoClash | crates/slipscan-core/src/datadir.rs:454-468 | What the move writes and what it deletes are disjoint if and only if neither folder clashes with the other; given the refusal of a target inside the source, the one clash left open is a source inside the documents store of the target. |
| Paths.StoreDeletesExactlyWhatItContains | crates/slipscan-core/src/datadir.rs:738-744 | Emptying the old documents store deletes another folder's database if and only if that folder lies in the store. |
| Paths.IdentityIsPath | crates/slipscan-core/src/datadir.rs:64-71 | Different files of the protocol have different paths when no folder involved lies in another one's documents store. |
| Paths.NamesOnDisk | crates/slipscan-core/src/datadir.rs:48-71 | The protocol's files by their names on disk. |
| Disk.UnsyncedExactly | crates/slipscan-core/src/datadir.rs:168-212 | What a power cut may bring back of a file: until it is synced, a written one torn, new or as before; a removed one gone or as before; a renamed one as either name might have been; once synced, what it is. |
| Disk.DirectorySyncExactly | crates/slipscan-core/src/datadir.rs:201-212 | Syncing a directory brings down the entries of its files, and the content of those that were synced before. |
| Disk.CopiesRestOnTheEntry | crates/slipscan-core/src/datadir.rs:764-781 | What the copied documents rest on: if syncing a file did not settle its new directory entry, a copied file would survive every power cut exactly when a file of that name was durably there before. |
| Books.RepointKeepsMeaning | crates/slipscan-core/src/datadir.rs:630-650 | Re-pointing a stored path changes neither which document it names nor any other value. |
| Books.CopySaysTheSame | crates/slipscan-core/src/datadir.rs:630-650 | The moved copy says in its new folder what the source says in the old one, to the last row. |
| Books.RelocatedTwice | crates/slipscan-core/src/datadir.rs:630-650 | Moving twice re-points as one direct move if and only if the first target's store captured no path stored in place, or the second move went nowhere. |
| Books.RoundTrip | crates/slipscan-core/src/datadir.rs:630-650 | Moving there and back restores every stored path if and only if nothing was captured. |
| Books.MovedRowByRow | crates/slipscan-core/src/datadir.rs:623-671 | Re-pointing goes by the component `documents`: a path below it keeps its name, anything else is untouched, and the audit row counts exactly the paths changed. |
| DataDir.DataFolder.MoveDataDir | crates/slipscan-core/src/datadir.rs:421-428 | Ok means delivered: new folder resolved, its database what the main file of the closed copy holds, all documents with the same bytes, nothing else changed, both counts exact; it means completed, with the content localised plus one audit row, if and only if closing the copy left no log or one that adds nothing. Err means unmoved, or, after the rename, delivered with nothing old deleted. It is refused as the current folder if and only if it is that, as inside it if and only if it lies strictly below it, and as holding a database if and only if neither is so and the journal is not exactly that of a move between these two folders that recorded the content there. Without I/O errors it succeeds, and completes, if and only if validation passes and no other handle is open. |
| DataDir.CompletedOnPaths | crates/slipscan-core/src/datadir.rs:421-428 | A completed move as found by path: `slipscan.db` and every document below `documents` lie in the new folder, and nothing of them in the old one if the report says so. |
| DataDir.CompletedRowByRow | crates/slipscan-core/src/datadir.rs:623-671 | And as found row by row: a path below the old folder's `documents` has the same name below the new one's, every other row is kept, and the one new row says from where, to where and how many. |
| DataDir.DataFolder.PrepareCopy | crates/slipscan-core/src/datadir.rs:436-552 | Each refusal is given exactly for its own reason, and changes nothing; any other error leaves the old folder resolved and unchanged. Ok says that a log stands beside the copy exactly when its close failed. |
| DataDir.DataFolder.LockAndQuiesceSource | crates/slipscan-core/src/datadir.rs:564-598 | The exclusive lock is refused exactly when another handle has the old database open. |
| DataDir.DataFolder.CleanTarget | crates/slipscan-core/src/datadir.rs:484-502 | The move's own earlier copy is gone, all three files; the source is not touched. |
| DataDir.DataFolder.CopyFileVerified | crates/slipscan-core/src/datadir.rs:764-781 | Ok: the file holds the source's bytes, durably, as do all copied before it, and is counted. No other file changes in any case; after a checksum mismatch the bad copy is gone unless it could not be removed. |
| DataDir.DataFolder.CopyDocuments | crates/slipscan-core/src/datadir.rs:516-533 | Every document of the store is copied, durably, and the count is exact. |
| DataDir.DataFolder.RewritePaths | crates/slipscan-core/src/datadir.rs:630-650 | The copy opens as the source with exactly the paths inside the old store re-pointed; the count is their number. |
| DataDir.DataFolder.CheckAndLocalizeCopy | crates/slipscan-core/src/datadir.rs:602-673 | The closed copy is, durably, the localised source plus the audit row of the move and its log is gone, or the close has failed and its log stands beside it; migration and integrity errors are errors of the call. |
| DataDir.DataFolder.WriteMoveJournal | crates/slipscan-core/src/datadir.rs:376-388 | The journal that vouches for a copy closed as it should be is durable while nothing stands at the final name yet. |
| DataDir.DataFolder.BeginCommit | crates/slipscan-core/src/datadir.rs:678-697 | Ok: what was closed has the final name, durably and vouched for by the journal if its log was folded; an error leaves the old folder active. |
| DataDir.DataFolder.WritePointer | crates/slipscan-core/src/datadir.rs:168-199 | Ok: the new folder is resolved, the only one after a power cut. Err: unmoved, or the new folder is resolved with the copy and nothing old is deleted. |
| DataDir.DataFolder.ReadBack | crates/slipscan-core/src/datadir.rs:713-726 | Reading the pointer back succeeds once it is durable; then the lock is dropped. |
| DataDir.DataFolder.RemoveOldDocuments | crates/slipscan-core/src/datadir.rs:729-744 | Nothing but documents of the old store goes; without faults the report stays as it was, and as long as it claims success the old database and store are gone. |
| DataDir.DataFolder.CommitMove | crates/slipscan-core/src/datadir.rs:702-759 | The commit as a whole, of whatever the closed copy holds: delivered, or unmoved, or delivered with nothing old deleted. |
| Calendar.DayNumbersOrderDates | crates/slipscan-core/src/recurrence.rs:41-58 | Day numbers order dates as the calendar does and are one to one. |
| Calendar.FromDayNumber | crates/slipscan-core/src/recurrence.rs:75-79 | Every integer is the day number of a real date. |
| Calendar.DayNumberRoundTrip | crates/slipscan-core/src/recurrence.rs:75-79 | And the date with a given day number is the one it came from. |
| Calendar.MonthIndexRoundTrip | crates/slipscan-core/src/recurrence.rs:85-99 | Euclidean division by twelve undoes the month index, in negative years too. |
| Calendar.FirstOfMonth | crates/slipscan-core/src/recurrence.rs:96-101 | The day number of the first of every month in closed form, counted from 1 March: (153 m + 2) / 5 days for m months after it. |
| Recurrence.AddMonthsIsExact | crates/slipscan-core/src/recurrence.rs:85-103 | Fails if and only if the target year is out of range; otherwise lands exactly that many months on, on the anchor's day or the month's last. |
| Recurrence.CheckedBuildIsExact | crates/slipscan-core/src/recurrence.rs:41-58 | With overflow checks the code computes the unbounded meaning if and only if its products fit 64 bits, and panics otherwise. |
| Recurrence.ReleaseBuildIsExactWhen | crates/slipscan-core/src/recurrence.rs:50-56 | Without them it is right if and only if the product fits 64 bits, or its wrapped value lies beyond what the calendar holds from that start; for days and weeks the seconds must fit as well. |
| Recurrence.WrappedOccurrenceIsTheStart | crates/slipscan-core/src/recurrence.rs:50-56 | A wrapping product makes a far later occurrence come back as the start date. |
| Recurrence.OccurrencesIncrease | crates/slipscan-core/src/recurrence.rs:41-58 | For every frequency and interval of at least one, a later index is a later date. |
| Recurrence.Gaps | crates/slipscan-core/src/recurrence.rs:50-56 | Consecutive occurrences are exactly k or 7k days apart, between 28k and 31k, or between 365k and 366k. |
| Recurrence.DueIsAPrefix | crates/slipscan-core/src/recurrence.rs:41-58 | The indices due by a date are exactly those up to a last one given in closed form. |
| Recurrence.CodeDueIsAPrefix | crates/slipscan-core/src/recurrence.rs:41-58 | With overflow checks the code finds due exactly those indices. Without them so it does where the product fits; an index whose product wraps is found due exactly when the wrapped shift is within reach. |
| Recurrence.AnchoringBeatsChaining | crates/slipscan-core/src/recurrence.rs:12-29 | Clamping against the previous occurrence is never later than anchoring, and loses nothing if and only if the month in between can hold the day. |
| Recurrence.LeapDayRecovers | crates/slipscan-core/src/recurrence.rs:25-27 | A yearly 29 February reads 29 exactly in leap years, centuries included. |
| Recurrence.MonthlyRecovers | crates/slipscan-core/src/recurrence.rs:12-24 | A monthly anchor reads its own day exactly in the months that have it, whatever came before. |
| Recurrence.ThirtyFirstReads | crates/slipscan-core/src/recurrence.rs:96-101 | An anchor on the 31st reads 30 exactly in April, June, September and November, 28 or 29 in February by the leap-year rule, and 31 in the other months. |
| Recurrence.IndexZeroIsTheStart | crates/slipscan-core/src/recurrence.rs:41-43 | Index zero gives the start date back, letter for letter if and only if it was spelled canonically. |
| Recurrence.MalformedExactly | crates/slipscan-core/src/recurrence.rs:41-49 | A start that is no date is reported as malformed, and nothing else is. |
| Recurrence.OccurrenceReadsBack | crates/slipscan-core/src/recurrence.rs:57-73 | A computed occurrence reads back as the date computed. |
| Recurrence.DueDateIsExact | crates/slipscan-core/src/recurrence.rs:60-67 | The due date is exactly that many days on; out of range if and only if there is no such date; a panic if and only if the seconds overflow. |
| Recurrence.OccurrenceTextsIncrease | crates/slipscan-core/src/recurrence.rs:69-73 | From year 0 on, occurrence texts increase with the index. |
| DateText.FormatThenParse | crates/slipscan-core/src/util.rs:188-193 | Every supported date survives being written and read. |
| DateText.ParseThenFormat | crates/slipscan-core/src/util.rs:188-193 | A date text survives being read and written if and only if it has no plus sign and no negative zero year. |
| DateText.TextsOrderDatesExactly | crates/slipscan-core/src/recurrence.rs:69-73 | Date texts compare as the dates do, except exactly between two different negative years. |
| DateText.FormattedText | crates/slipscan-core/src/util.rs:188-193 | A date is written as four digits, a hyphen, two, a hyphen, two, zero padded, with a minus sign before negative years. |
| DateText.ParsesExactly | crates/slipscan-core/src/util.rs:188-193 | A text reads as a supported date if and only if it is spelled so, or with a plus sign before a year that is not negative, or with a minus sign before year zero. |
| Csv.Row | crates/slipscan-core/src/csv.rs:18-28 | The loop prints the fields joined by commas, and one line feed. |
| Csv.Field | crates/slipscan-core/src/csv.rs:10-16 | A field is left as it is if and only if its text has no quote, comma, line feed or carriage return; otherwise it stands between quotes. |
| Csv.PlainRows | crates/slipscan-core/src/csv.rs:18-28 | Plain fields are joined by a single comma, and a record ends with a single line feed. |
| Csv.ScanField | crates/slipscan-core/src/csv.rs:10-16 | Either way, a printed field reads back as its text, whatever follows it. |
| Csv.RoundTripExactly | crates/slipscan-core/src/csv.rs:10-28 | Reading by section 2 of RFC 4180 gives back the records printed if and only if each has a field. |
| Csv.ParsePrinted | crates/slipscan-core/src/csv.rs:10-28 | Any text in any field survives; a record without fields reads as one with a single empty field. |
| Csv.DistinctRecordsPrintDistinctly | crates/slipscan-core/src/csv.rs:10-28 | Different lists of records never print alike, as long as each record has a field. |
| Csv.PushRows | crates/slipscan-core/src/csv.rs:32-39 | The exporters' loop appends one record per row, in order. |
| Reports.SpendingCsv | crates/slipscan-core/src/csv.rs:30-41 | Reads back as the literal header and, in record i + 1, the fields of row i under their own names, a missing category blank; the amount column sums to what was spent. |
| Reports.SpendingByMonthCsv | crates/slipscan-core/src/csv.rs:43-61 | Reads back as the literal header and each row's fields under their own names. |
| Reports.TrialBalanceCsv | crates/slipscan-core/src/csv.rs:63-83 | Reads back as the literal header and each row's fields under their own names, debit and credit apart, the kind by its name. |
| Reports.TrialRecordIsFaithful | crates/slipscan-core/src/csv.rs:73-80 | No two trial-balance rows export alike. |
| Reports.IncomeStatementCsv | crates/slipscan-core/src/csv.rs:85-128 | Reads back as the literal header, the income rows, the expense rows and three totals, each total with its own caption and figure. |
| Reports.TaxSummaryCsv | crates/slipscan-core/src/csv.rs:133-195 | Reads back as the literal header; in record i + 1 the cell under each name is that field of row i; each total record has its own label, its figure in its own column, and blanks elsewhere. |
| Reports.TaxColumns | crates/slipscan-core/src/csv.rs:181-194 | In any such table net tax stands in the last column of the last record and nowhere else; the input column sums to input tax alone, the output column to output tax alone. |
| Reports.SaysExactly | crates/slipscan-core/src/csv.rs:30-41 | A cell stands for an amount if and only if it parses as it and is spelled plainly: no plus sign, no leading zero. |
| Digits.SignedRoundTrip | crates/slipscan-core/src/csv.rs:30-41 | An exported amount parses back as the same number. |
| Digits.SignedIsCanonical | crates/slipscan-core/src/csv.rs:30-41 | It is written without plus sign and leading zeros, with a minus sign exactly when negative. |
| Lexemes.LexIsExact | scripts/check-tests-assert.ts:92-145 | The first token is a comment, string, raw string or character literal of length n if and only if the first n characters are such a lexeme. |
| Lexemes.RawStringShape | scripts/check-tests-assert.ts:110-125 | A raw string is r, any number of #, a quote, and ends with the first quote followed by as many #. |
| Lexemes.PlainTokensExactly | scripts/check-tests-assert.ts:92-148 | A token is a brace if and only if it starts with one; what is neither skipped nor broken is one character; a token breaks off, at the end of the text, if and only if a comment, string or raw string begins that nothing completes. |
| Lexemes.TokensAreFirsts | scripts/check-tests-assert.ts:92-157 | Each token is the first of the text that is left where it starts, and only the last breaks off. |
| Lexemes.TokensTile | scripts/check-tests-assert.ts:92-157 | Tokens tile the text from end to end. |
| BlockLexer.TokenAt | scripts/check-tests-assert.ts:96-148 | The scanner's tests, in its order and index arithmetic, find the token at an index. |
| BlockLexer.LexAtIsLex | scripts/check-tests-assert.ts:96-148 | That token is the first token of the suffix. |
| BlockLexer.FindClose | scripts/check-tests-assert.ts:95-157 | The loop finds what the token-by-token scan finds. |
| BlockLexer.BlockAt | scripts/check-tests-assert.ts:92-157 | The result is the text from behind the first brace at or after the index to the token at which the depth first returns to zero; nothing if there is no such brace or no such token. |
| BlockLexer.DepthCountsBraces | scripts/check-tests-assert.ts:146-156 | The depth is the number of opening brace tokens less that of closing ones. |
| BlockLexer.CloseIsTheFirstBalance | scripts/check-tests-assert.ts:150-156 | The scan stops at the token where the depth first returns to zero, having been positive all the way, and finds none exactly when there is none. |
| BlockLexer.BodyIsTheFirstBalancedText | scripts/check-tests-assert.ts:78-91 | The body is the text up to that token. |
| BlockRewrite.BoundaryKeptExactly | scripts/check-tests-assert.ts:121-133 | Rewriting what follows keeps the token boundary if and only if no lifetime before it comes to see a quote within four characters. |
| BlockRewrite.RewriteKeepsTheEnd | scripts/check-tests-assert.ts:85-91 | Putting one comment, string, raw string or literal for another of its kind leaves the end at the same brace, moved by the change in length, provided no lifetime before it comes to see a quote. The proviso is exact for the boundary, sufficient for the end. |
| BlockRewrite.RewriteKeepsTheBody | scripts/check-tests-assert.ts:85-91 | Under the same proviso, sufficient here too, the body is the same text with the one put for the other, or does not reach it. |
| BlockRewrite.EndMayStayThoughTheBoundaryMoves | scripts/check-tests-assert.ts:121-133 | It is not necessary for the end: a text in which a lifetime swallows the start of the rewritten comment and the block still ends at the same brace. |
| BlockRewrite.FarQuotesAreClear | scripts/check-tests-assert.ts:121-133 | With no quote in the four characters before it, a token can be rewritten freely. |
| BlockRewrite.LifetimeSeesIntoTheString | scripts/check-tests-assert.ts:121-133 | Next to a lifetime it is false: a quote inside the string empties the body. |
| TestMods.StripTestMods | scripts/check-tests-assert.ts:57-76 | Terminates; the output is the source without its intervals, which are apart and in order. |
| TestMods.StripKeepsEverythingElse | scripts/check-tests-assert.ts:57-76 | Every character outside the intervals is kept, in order, and no other. |
| TestMods.CutsRunToClose | scripts/check-tests-assert.ts:62-74 | Each interval runs from a header to the first place where its braces balance, or to the end. |
| TestMods.ModuleEndIsFirstBalance | scripts/check-tests-assert.ts:64-73 | The counting loop stops at the first balance, having counted a positive depth until then. |
| TestMods.NoHeaderIsLeft | scripts/check-tests-assert.ts:61-63 | No header is found behind the last interval. |
| Migrations.StepKeeps | crates/slipscan-core/src/db.rs:166-193 | Any step of any opener, a crash included, keeps recorded rows and schema the same prefix of the migrations and only lengthens it. |
| Migrations.EveryRunKeepsThePrefix | crates/slipscan-core/src/db.rs:166-193 | So does every run from a new file; an opener that returned Ok left all migrations applied. |
| Migrations.SkipsExactlyTheApplied | crates/slipscan-core/src/db.rs:174-180 | Skipping on the latest version alone skips exactly what is applied. |
| Migrations.MigrationErrorsExactly | crates/slipscan-core/src/db.rs:180-185 | A migration error arises at the body of a pending migration and nowhere else, exactly when another opener has committed that version since the rows were read, the lock is held past the timeout, or the body meets an I/O error; nothing is written. |
| Migrations.FailsExactlyWhenOvertaken | crates/slipscan-core/src/db.rs:181-185 | With the lock free and no fault, exactly the first. |
| Migrations.TheSlowerOpenerFails | crates/slipscan-core/src/db.rs:105-117 | Of two openers that read the same rows the slower one fails, although the file has what it wanted. |
| Opener.MigrateCall.Migrate | crates/slipscan-core/src/db.rs:166-193 | With other openers at work between any two operations: Ok means all applied; a migration error names a version that was not applied before, and without I/O errors either has been applied by another opener meanwhile or the lock is held; alone and without I/O errors the call always completes. |
| Extraction.PendingIsExact | crates/slipscan-core/src/service.rs:5824-5831 | The batch is drawn from exactly the pending documents of the book, each once. |
| Extraction.BatchIsExact | crates/slipscan-cli/src/extractor.rs:51-54 | The batch holds exactly the documents pending in the book with fewer than `limit` such documents before them, each at the place that says how many; its length is the smaller of `limit` and their number. |
| Extraction.RunTakesExactly | crates/slipscan-cli/src/extractor.rs:51-54 | So does the report of a complete run. |
| Extraction.ReportIsAPartition | crates/slipscan-cli/src/extractor.rs:25-37 | Every document of the batch is in exactly one of the three lists, once, and nothing else is. |
| Extraction.ReportMatchesStatus | crates/slipscan-cli/src/extractor.rs:25-37 | Being in a list and having its final status are the same thing; an extracted document carries the provider's payload. |
| Extraction.ListsFollowTheBatch | crates/slipscan-cli/src/extractor.rs:25-37 | Each of the three lists is in the order of the batch. |
| Extraction.FailuresCarryTheirMessage | crates/slipscan-cli/src/extractor.rs:25-37 | A failed document is listed with the message it now carries. |
| Extraction.AtMostOneProcessing | crates/slipscan-cli/src/extractor.rs:69-88 | An early error leaves at most one document of the run in processing. |
| Extraction.OthersUntouched | crates/slipscan-cli/src/extractor.rs:54-90 | No run, complete or cut short, touches a document outside its batch. |
| Extraction.RetryableExactly | crates/slipscan-core/src/service.rs:9346-9361 | By manual transitions a document becomes pending again if and only if it is pending, processing or failed; one an error left in processing needs two of them. |
| Extraction.RunsLeaveSettledDocumentsAlone | crates/slipscan-cli/src/extractor.rs:46-52 | Through any runs, imports and changes to other documents, one that is not pending stays as it is. |
| Extraction.NoProgressExactlyWhenAllSkipped | crates/slipscan-cli/src/extractor.rs:54-59 | A complete run changes nothing if and only if its whole batch is unsupported. |
| Extraction.SkippedDocumentsStarveTheRest | crates/slipscan-cli/src/extractor.rs:51-59 | Unsupported documents that fill the batch keep everything behind them from being looked at, through any runs, complete or cut short, and whatever is imported or changed besides, as long as they themselves stay. |
| Extractor.Service.RunExtraction | crates/slipscan-cli/src/extractor.rs:40-92 | Ok: the report names exactly the documents pending in the book with fewer than `limit` such documents before them, and as many as there are of those; they have their verdicts, the report says which, nothing else changed. Err: before the first document nothing has changed; later a prefix is settled, the next document at most in processing, the rest untouched. Without faults it is Ok, so no transition is ever refused. |
| Extractor.Service.ExtractOne | crates/slipscan-cli/src/extractor.rs:54-89 | One document gets the verdict its file and the provider call for. |
| Extraction.VerdictExactly | crates/slipscan-cli/src/extractor.rs:54-89 | A document is skipped if and only if its stored type is none of the five; otherwise it fails with the reading error under its path or with the provider's message, or is extracted with the provider's payload for that type and those bytes. |
| Extractor.SettledExactly | crates/slipscan-cli/src/extractor.rs:54-89 | Failing sets status and message and nothing else; extracting sets the status, clears the message and makes the payload current. |
| Extractor.Service.DocumentTransition | crates/slipscan-core/src/service.rs:5834-5865 | Succeeds exactly for a known document and an allowed transition; otherwise nothing changes. |
| Extractor.Service.RecordExtraction | crates/slipscan-core/src/service.rs:5869-5913 | Refused exactly for a payload that is not JSON and for unknown and reviewed documents; otherwise payload and status change together. |

## Left out

- MoveWorld.StepKeeps: folders nested in one another's documents stores are outside it; what happens then is `Paths.DisjointExactlyWhenNoClash` and `Paths.StoreDeletesExactlyWhatItContains`. So is a close of the copy that fails to fold its log; that is `MoveUnfolded`.
- MoveRuns.EveryRunIsSafe: one mover at a time; what a second one does is `MoveHazards.SecondMoverDestroysTheBooks`.
- MoveForeign.ForeignDatabasesAreNeverTouched: not for a database inside a documents store the move fills or empties, which the code does delete.
- DataDir.DataFolder.MoveDataDir: other processes do not act inside the call; `MoveRuns.EveryRunIsSafe` covers every interleaving of the same steps.
- DataDir.DataFolder.ReadBack: the branch for a mismatch is not reachable here, because nothing else writes the pointer.
- DataDir.DataFolder.CheckAndLocalizeCopy: opening the copy also migrates it; the migration is the identity on rows here. A migration or integrity error is a fault at this point, not derived from the copy.
- DataDir.DataFolder.RewritePaths: one canonical spelling of the old folder; the second spelling the code also rewrites from is not modelled.
- DataDir.DataFolder.RemoveOldDocuments: empty directories left behind are not modelled; files have paths, directories exist only as prefixes.
- MoveUnfolded.UnfoldedRunEnds: what a crash or a power cut leaves after a close that failed is not followed; neither is what is durable then.
- DataDir.DataFolder.CopyFileVerified: after a checksum mismatch the bad copy may stay, since its removal is best effort.
- BlockRewrite.RewriteKeepsTheEnd: the proviso is sufficient; it is exact for the token boundary, and `BlockRewrite.EndMayStayThoughTheBoundaryMoves` shows it is not for the end.
- Files stored in place inside the old folder but outside its store are covered at the level of paths only.
- The platform lookup, status report, directory sizes, progress callbacks and the count of bytes copied.
- Canonicalisation, permissions, the write probe at the target, relative or malformed pointer files, symbolic links.
- Deleting rows; a transaction that deletes one is not a step of the machine.
- Recurrence.OccurrenceReadsBack: how the `time` crate spells and reads years (a sign, exactly four digits, -9999 to 9999) is taken from its documented format; the crate is not part of this model.
- Recurrence.CodeDueIsAPrefix: `interval_count >= 1` is checked by `recurring_schedule_create`; the rest of scheduling is not part of this model.
- Reports.SpendingCsv: amounts are unbounded integers; their 64-bit width plays no part in printing them.
- TestMods.StripTestMods: the regular expression for a test module's header is any function that finds a match ending in the opening brace.
- BlockLexer.BlockAt: characters are as in `seq<char>`; surrogate pairs play no part in the scanner.
- The test-discovery expressions and assertion heuristics of the same script.
- Migrations.StepKeeps: migration bodies are opaque; all that is used is that one already applied fails, since no file guards its statements.
- Opener.MigrateCall.Migrate: an opener that meets a held lock may wait for the timeout and fail; one that gets the lock within the timeout is the same call a little later.
- Extractor.Service.RunExtraction: one process at work on the documents; the provider and the files are arbitrary but fixed for the run; audit rows and timestamps are left out.
- Extraction providers, the asynchronous runtime and serialisation of the slip, whose failure is a fault here.
- The command line, the server, the desktop shell, and the ledger, invoicing and tax logic of the service.
