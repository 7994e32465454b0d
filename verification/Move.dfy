/**
 The data-folder move as a step machine. One step is one file-system operation of the move,
 one action of another process, or a failure. A run of the machine is any interleaving.
 */
module Move {
  import opened Wrappers
  import opened Paths
  import opened Books
  import opened Disk

  /** What the move does next. Numbered stages are: create, write, sync the file, sync the
      directory. */
  datatype Phase =
    | Idle
    | Cleaning(part: DbPart)
    | Locking
    | CopyingDb(stage: nat)
    | CopyingDocs(todo: set<Path>)
    | CopyingDoc(todo: set<Path>, rel: Path, stage: nat)
    | Rewriting(left: set<Key>)
    | Auditing
    | Closing
    | Journaling(stage: nat)
    | Finalising
    | SyncingTarget
    | WritingTmp(stage: nat)
    | Swapping
    | SyncingConfig
    | ReadingBack
    | Deleting(part: DbPart)
    | DeletingDocs(todo: set<Path>)
    | DeletingJournal

  /** The moving process. `src` and `store` are the source database and documents as they were
      when the exclusive lock was taken; `dirty` records that the target's final name held a
      database when the run began, or may still hold one after a power cut. */
  datatype Run = Run(
    phase: Phase,
    from: Path,
    to: Path,
    dirty: bool,
    src: Db,
    store: map<Path, Content>,
    auditId: string,
    copied: nat,
    rewritten: nat,
    oldRemoved: bool)

  /** What actually happened, for stating the theorems; no step of the move reads it.
      `books` are all rows ever committed, less what power cuts took, by what they say; `papers`
      likewise all documents ever stored. `unsynced` are the rows committed since the log of the
      resolved folder last reached the disk; `before` is what the books said when the pointer was last
      renamed; `made` are the databases the move itself produced. */
  datatype History = History(
    books: map<Key, Meaning>,
    papers: map<Path, Bytes>,
    unsynced: set<Key>,
    before: map<Key, Meaning>,
    made: set<Db>)

  /** `config` is the fixed folder of the pointer and the journal. */
  datatype State = State(
    fs: Fs,
    config: Path,
    fallback: Path,
    conns: map<nat, Path>,
    lock: Option<Path>,
    run: Run,
    past: History)

  datatype Refusal =
    | NothingToMove
    | SameFolder
    | InsideCurrent
    | TargetHasDatabase

  datatype Step =
    // the move
    | Begin(to: Path)
    | Next
    | TakeDoc(rel: Path)
    | TakeRow(key: Key)
    | Record(auditId: string)
    | Skip
    | Abort
    | Mismatch
    | LeaveLog(main: Content)
    // other processes and the machine
    | Open(pid: nat)
    | Close(pid: nat)
    | Commit(pid: nat, rows: Db, papers: map<Path, Bytes>)
    | Flush(id: FileId)
    | Tamper(id: FileId, file: File)
    | PowerCut(cut: Fs)

  // ----- resolution -----

  /** The folder a pointer file names; the platform default when there is none. */
  function FolderOf(fallback: Path, f: File): Path {
    match f
    case Some(PointerTo(d)) => d
    case _ => fallback
  }

  function Resolve(s: State): Path {
    FolderOf(s.fallback, Now(s.fs, Pointer))
  }

  /** The folders resolution may name once power has been cut. */
  function Options(s: State): set<Path> {
    FoldersOf(s.fallback, OnDisk(s.fs, Pointer))
  }

  function FoldersOf(fallback: Path, files: set<File>): set<Path> {
    set f | f in files :: FolderOf(fallback, f)
  }

  // ----- validation -----

  /** The journal vouches for the database at the target's final name. */
  predicate JournalMatches(fs: Fs, from: Path, to: Path) {
    match Now(fs, Journal)
    case Some(JournalOf(origin, destination, sum)) =>
      && origin == from
      && destination == to
      && Now(fs, DbFile(to, Main)).Some?
      && Sha256(Now(fs, DbFile(to, Main)).value) == sum
    case _ => false
  }

  /** The refusals of `prepare_copy`, in the order it makes them. */
  function Validate(fs: Fs, from: Path, to: Path): Option<Refusal> {
    if Now(fs, DbFile(from, Main)).None? then Some(NothingToMove)
    else if to == from then Some(SameFolder)
    else if StartsWith(to, from) then Some(InsideCurrent)
    else if Now(fs, DbFile(to, Main)).Some? && !JournalMatches(fs, from, to) then Some(TargetHasDatabase)
    else None
  }

  // ----- the move's own steps -----

  function NextPart(part: DbPart): Option<DbPart> {
    match part
    case Main => Some(Wal)
    case Wal => Some(Shm)
    case Shm => None
  }

  function Goto(s: State, fs: Fs, phase: Phase): State {
    s.(fs := fs, run := s.run.(phase := phase))
  }

  /** What SQLite reads when the partial copy is opened, a leftover log included. */
  function PartialView(fs: Fs, to: Path): Option<Db> {
    Recover(Now(fs, Partial(to, Main)), Now(fs, Partial(to, Wal)))
  }

  function JournalFor(s: State): Content {
    var db := Now(s.fs, Partial(s.run.to, Main));
    JournalOf(s.run.from, s.run.to, Sha256(if db.Some? then db.value else Torn))
  }

  predicate Mentions(f: File, auditId: string) {
    match f
    case Some(Database(db)) => MoveEntry(auditId) in db
    case Some(Log(over)) => MoveEntry(auditId) in over
    case _ => false
  }

  /** `new_id()`: an audit id no database anywhere has seen. */
  ghost predicate FreshId(s: State, auditId: string) {
    && (forall id, f :: id in s.fs && f in OnDisk(s.fs, id) ==> !Mentions(f, auditId))
    && (forall db :: db in s.past.made ==> MoveEntry(auditId) !in db)
  }

  ghost predicate MoverEnabled(s: State, step: Step) {
    match step
    case Begin(to) => s.run.phase.Idle? && Validate(s.fs, Resolve(s), to).None?
    case Next =>
      (match s.run.phase
       case Idle => false
       case Locking =>
         && s.lock.None?
         && s.run.from !in s.conns.Values
         && ContentOf(s.fs, s.run.from).Some?
       case CopyingDocs(todo) => todo == {} && PartialView(s.fs, s.run.to).Some?
       case Rewriting(left) => left == {}
       case Auditing => false
       case Closing => PartialView(s.fs, s.run.to).Some?
       case ReadingBack => Resolve(s) == s.run.to
       case DeletingDocs(todo) => todo == {}
       case _ => true)
    case TakeDoc(rel) =>
      (match s.run.phase
       case CopyingDocs(todo) => rel in todo
       case DeletingDocs(todo) => rel in todo
       case _ => false)
    case TakeRow(k) =>
      && s.run.phase.Rewriting?
      && k in s.run.phase.left
      && PartialView(s.fs, s.run.to).Some?
      && k in PartialView(s.fs, s.run.to).value
    case Record(auditId) => s.run.phase.Auditing? && FreshId(s, auditId)
    case Skip => s.run.phase.Deleting? || s.run.phase.DeletingDocs? || s.run.phase.DeletingJournal?
    case Abort => !s.run.phase.Idle?
    case Mismatch =>
      || (s.run.phase.CopyingDb? && s.run.phase.stage == 2)
      || (s.run.phase.CopyingDoc? && s.run.phase.stage == 2)
    case LeaveLog(main) =>
      && s.run.phase.Closing?
      && PartialView(s.fs, s.run.to).Some?
      && MayLeave(Now(s.fs, Partial(s.run.to, Main)).value.db, LogOver(Now(s.fs, Partial(s.run.to, Wal))), main)
    case _ => false
  }

  /** What closing the copy may leave in its main file when the checkpoint fails: each row as it was or
      as the log has it, all, some or none of them folded; or nothing that can be read. */
  predicate MayLeave(base: Db, over: Db, main: Content) {
    main.Torn?
    || (main.Database?
        && base.Keys <= main.db.Keys <= base.Keys + over.Keys
        && forall k :: k in main.db ==>
             (k in over && main.db[k] == over[k]) || (k in base && main.db[k] == base[k]))
  }

  /** Write `c` to `id` in three stages, then go on with `after`. */
  function Stage(fs: Fs, id: FileId, c: Content, stage: nat): Fs {
    if stage == 0 then Truncate(fs, id)
    else if stage == 1 then Write(fs, id, c)
    else SyncFile(fs, id)
  }

  function BeginRun(s: State, to: Path): Run {
    var present := Now(s.fs, DbFile(to, Main)).Some?;
    var dirty := OnDisk(s.fs, DbFile(to, Main)) != {None};
    Run(if present then Cleaning(Main) else Locking, Resolve(s), to, dirty, map[], map[], "", 0, 0, true)
  }

  /** Fold the log into the main file and hold the exclusive lock. */
  function LockAndFold(s: State, db: Db): State {
    var from := s.run.from;
    s.(fs := s.fs[DbFile(from, Main) := Slot(Some(Database(db)), {Some(Database(db))})]
                 [DbFile(from, Wal) := Slot(Some(Log(map[])), {Some(Log(map[]))})],
       lock := Some(from),
       run := s.run.(phase := CopyingDb(0), src := db, store := StoreOf(s.fs, from)))
  }

  /** Close the copy: checkpoint its log into the main file and delete the log. */
  function CloseCopy(fs: Fs, to: Path, db: Db): Fs {
    Remove(fs[Partial(to, Main) := Slot(Some(Database(db)), {Some(Database(db))})], Partial(to, Wal))
  }

  function CleanNext(s: State, part: DbPart): State {
    Goto(s, Remove(s.fs, DbFile(s.run.to, part)), match NextPart(part) case Some(p) => Cleaning(p) case None => Locking)
  }

  function CopyDbNext(s: State, stage: nat): State {
    var fs := Stage(s.fs, Partial(s.run.to, Main), Database(s.run.src), stage);
    if stage < 2 then Goto(s, fs, CopyingDb(stage + 1))
    else s.(fs := fs, run := s.run.(phase := CopyingDocs(s.run.store.Keys), copied := 1))
  }

  function CopyDocNext(s: State, todo: set<Path>, rel: Path, stage: nat): State {
    var c := if rel in s.run.store then s.run.store[rel] else Torn;
    var fs := Stage(s.fs, Doc(s.run.to, rel), c, stage);
    if stage < 2 then Goto(s, fs, CopyingDoc(todo, rel, stage + 1))
    else s.(fs := fs, run := s.run.(phase := CopyingDocs(todo - {rel}), copied := s.run.copied + 1))
  }

  /** Open the copy and list the rows to re-point. */
  function OpenCopy(s: State, view: Db): State {
    Goto(s, s.fs, Rewriting(StoreKeys(view, s.run.from)))
  }

  function JournalNext(s: State, stage: nat): State {
    if stage < 3 then Goto(s, Stage(s.fs, Journal, JournalFor(s), stage), Journaling(stage + 1))
    else Goto(s, SyncDir(s.fs, Config), Finalising)
  }

  /** The verified copy takes its final name. */
  function Finalise(s: State): State {
    Goto(s, Rename(s.fs, Partial(s.run.to, Main), DbFile(s.run.to, Main)), SyncingTarget)
  }

  function SyncTarget(s: State): State {
    Goto(s, SyncDir(s.fs, Folder(s.run.to)), WritingTmp(0))
  }

  function TmpNext(s: State, stage: nat): State {
    Goto(s, Stage(s.fs, PointerTmp, PointerTo(s.run.to), stage), if stage < 2 then WritingTmp(stage + 1) else Swapping)
  }

  /** The pointer swap. */
  function Swap(s: State): State {
    Goto(s, Rename(s.fs, PointerTmp, Pointer), SyncingConfig).(past := s.past.(before := s.past.books))
  }

  function SyncConfig(s: State): State {
    Goto(s, SyncDir(s.fs, Config), ReadingBack)
  }

  function AfterDeleting(s: State, part: DbPart): Phase {
    match NextPart(part)
    case Some(p) => Deleting(p)
    case None => DeletingDocs(StoreNames(s.fs, s.run.from))
  }

  function MoverNext(s: State): State
    requires s.run.phase.Locking? ==> ContentOf(s.fs, s.run.from).Some?
    requires s.run.phase.CopyingDocs? || s.run.phase.Closing? ==> PartialView(s.fs, s.run.to).Some?
  {
    var fs, to, from := s.fs, s.run.to, s.run.from;
    match s.run.phase
    case Cleaning(part) => CleanNext(s, part)
    case Locking => LockAndFold(s, ContentOf(fs, from).value)
    case CopyingDb(stage) => CopyDbNext(s, stage)
    case CopyingDoc(todo, rel, stage) => CopyDocNext(s, todo, rel, stage)
    case CopyingDocs(_) => OpenCopy(s, PartialView(fs, to).value)
    case Rewriting(_) => Goto(s, fs, Auditing)
    case Closing => Goto(s, CloseCopy(fs, to, PartialView(fs, to).value), Journaling(0))
    case Journaling(stage) => JournalNext(s, stage)
    case Finalising => Finalise(s)
    case SyncingTarget => SyncTarget(s)
    case WritingTmp(stage) => TmpNext(s, stage)
    case Swapping => Swap(s)
    case SyncingConfig => SyncConfig(s)
    case ReadingBack => Goto(s, fs, Deleting(Main)).(lock := None)
    case Deleting(part) => Goto(s, Remove(fs, DbFile(from, part)), AfterDeleting(s, part))
    case DeletingDocs(_) => Goto(s, fs, DeletingJournal)
    case DeletingJournal => Goto(s, Remove(fs, Journal), Idle)
    case Idle => s
    case Auditing => s
  }

  function LogRow(fs: Fs, to: Path, k: Key, v: Value): Fs {
    Write(fs, Partial(to, Wal), Log(LogOver(Now(fs, Partial(to, Wal)))[k := v]))
  }

  /** `UPDATE documents SET file_path` for one row. */
  function RewriteRow(s: State, left: set<Key>, k: Key): State {
    match PartialView(s.fs, s.run.to)
    case Some(view) =>
      if k in view then
        s.(fs := LogRow(s.fs, s.run.to, k, Repoint(view[k], s.run.from, s.run.to)),
           run := s.run.(phase := Rewriting(left - {k}), rewritten := s.run.rewritten + 1))
      else s
    case None => s
  }

  /** The audit row of the move, written to the copy. */
  function RecordMove(s: State, auditId: string): State {
    s.(fs := LogRow(s.fs, s.run.to, MoveEntry(auditId), Moved(s.run.from, s.run.to, s.run.rewritten)),
       run := s.run.(phase := Closing, auditId := auditId),
       past := s.past.(made := s.past.made + {MovedCopy(s.run.src, s.run.from, s.run.to, auditId)}))
  }

  /** A removal failed: the move reports it and carries on. */
  function SkipNext(s: State): State {
    match s.run.phase
    case Deleting(part) => s.(run := s.run.(phase := AfterDeleting(s, part), oldRemoved := false))
    case DeletingDocs(_) => s.(run := s.run.(phase := DeletingJournal, oldRemoved := false))
    case DeletingJournal => s.(run := s.run.(phase := Idle))
    case _ => s
  }

  /** The process gives up or dies; its lock goes with it. */
  function Stopped(s: State): State {
    s.(lock := None, run := s.run.(phase := Idle))
  }

  function MoverRaw(s: State, step: Step): State
    requires step.Next? ==> (s.run.phase.Locking? ==> ContentOf(s.fs, s.run.from).Some?)
    requires step.Next? ==> (s.run.phase.CopyingDocs? || s.run.phase.Closing? ==> PartialView(s.fs, s.run.to).Some?)
  {
    var fs, to, from := s.fs, s.run.to, s.run.from;
    match step
    case Begin(target) => s.(run := BeginRun(s, target))
    case Next => MoverNext(s)
    case TakeDoc(rel) =>
      (match s.run.phase
       case CopyingDocs(todo) => Goto(s, fs, CopyingDoc(todo, rel, 0))
       case DeletingDocs(todo) => Goto(s, Remove(fs, Doc(from, rel)), DeletingDocs(todo - {rel}))
       case _ => s)
    case TakeRow(k) => if s.run.phase.Rewriting? then RewriteRow(s, s.run.phase.left, k) else s
    case Record(auditId) => RecordMove(s, auditId)
    case Skip => SkipNext(s)
    case Mismatch =>
      (match s.run.phase
       case CopyingDb(_) => Stopped(s.(fs := Remove(fs, Partial(to, Main))))
       case CopyingDoc(_, rel, _) => Stopped(s.(fs := Remove(fs, Doc(to, rel))))
       case _ => s)
    // the close of the copy has no result: its log stays, and the move goes on
    case LeaveLog(main) => Goto(s, Write(fs, Partial(to, Main), main), Journaling(0))
    case _ => Stopped(s)
  }

  // ----- everything else that can happen -----

  function FolderOfFile(id: FileId): Option<Path> {
    match id
    case DbFile(dir, _) => Some(dir)
    case Partial(dir, _) => Some(dir)
    case Doc(dir, _) => Some(dir)
    case _ => None
  }

  /** Other processes may do anything to folders that are neither resolvable nor part of the
      move in progress. */
  predicate Outside(s: State, id: FileId) {
    && FolderOfFile(id).Some?
    && FolderOfFile(id).value !in Options(s)
    && (!s.run.phase.Idle? ==> FolderOfFile(id).value != s.run.from && FolderOfFile(id).value != s.run.to)
  }

  predicate WorldEnabled(s: State, step: Step) {
    match step
    // resolving and opening are one action; the exclusive lock refuses the open
    case Open(pid) => pid !in s.conns && s.lock != Some(Resolve(s))
    case Close(pid) => pid in s.conns
    // the rows are those the transaction changes; stored documents get fresh names
    case Commit(pid, rows, papers) =>
      && pid in s.conns
      && s.lock != Some(s.conns[pid])
      && ContentOf(s.fs, s.conns[pid]).Some?
      && (forall k :: k in rows ==> k.Entry?)
      && (forall k :: k in rows ==> Changes(ContentOf(s.fs, s.conns[pid]).value, k, rows[k], s.conns[pid]))
      && papers.Keys !! StoreNames(s.fs, s.conns[pid])
    case Flush(id) => id in s.fs
    case Tamper(id, file) => Outside(s, id) && file != Some(Torn)
    case PowerCut(cut) => CutOf(s.fs, cut)
    case _ => false
  }

  /** Writing `v` to row `k` changes what a database in `q` says. */
  predicate Changes(db: Db, k: Key, v: Value, q: Path) {
    k in db ==> MeaningOf(db[k], q) != MeaningOf(v, q)
  }

  /** Documents are written without a sync: each may be absent or torn after a power cut. */
  function AddPapers(fs: Fs, q: Path, papers: map<Path, Bytes>): Fs {
    fs + map rel | rel in papers :: Doc(q, rel) := Cached(fs, Doc(q, rel), Blob(papers[rel]))
  }

  function Cached(fs: Fs, id: FileId, c: Content): Slot {
    Slot(Some(c), OnDisk(fs, id) + {Some(Torn), Some(c)})
  }

  /** `synchronous = NORMAL`: the log grows, and any earlier state of it since the last sync may be
      what a power cut leaves. */
  function AddRows(fs: Fs, q: Path, rows: Db): Fs {
    var log := Some(Log(LogOver(Now(fs, DbFile(q, Wal))) + rows));
    fs[DbFile(q, Wal) := Slot(log, OnDisk(fs, DbFile(q, Wal)) + {log})]
  }

  /** A transaction committed through folder `q`. */
  function Committed(s: State, q: Path, rows: Db, papers: map<Path, Bytes>): State {
    var before := if Solid(s.fs, DbFile(q, Wal)) then {} else s.past.unsynced;
    s.(fs := AddPapers(AddRows(s.fs, q, rows), q, papers),
       past := s.past.(
         books := s.past.books + Said(rows, q),
         papers := s.past.papers + papers,
         unsynced := before + rows.Keys))
  }

  /** What the resolved database says. */
  function BooksAt(s: State): map<Key, Meaning> {
    match ContentOf(s.fs, Resolve(s))
    case Some(db) => Said(db, Resolve(s))
    case None => map[]
  }

  /** The stored documents the resolved folder holds intact. */
  function PapersAt(s: State): map<Path, Bytes> {
    map rel | rel in s.past.papers && Now(s.fs, Doc(Resolve(s), rel)) == Some(Blob(s.past.papers[rel])) ::
      s.past.papers[rel]
  }

  /** After a power cut the books are what is left of them. */
  function Recovered(s: State): State {
    s.(past := s.past.(books := BooksAt(s), papers := PapersAt(s), unsynced := {}))
  }

  function WorldRaw(s: State, step: Step): State {
    match step
    case Open(pid) => s.(conns := s.conns[pid := Resolve(s)])
    case Close(pid) => s.(conns := s.conns - {pid})
    case Commit(pid, rows, papers) => if pid in s.conns then Committed(s, s.conns[pid], rows, papers) else s
    case Flush(id) => s.(fs := SyncFile(s.fs, id))
    case Tamper(id, file) => s.(fs := s.fs[id := Slot(file, {file})])
    case PowerCut(cut) => Recovered(Stopped(s.(fs := cut, conns := map[])))
    case _ => s
  }

  predicate IsMover(step: Step) {
    || step.Begin? || step.Next? || step.TakeDoc? || step.TakeRow?
    || step.Record? || step.Skip? || step.Abort? || step.Mismatch? || step.LeaveLog?
  }

  ghost predicate Enabled(s: State, step: Step) {
    if IsMover(step) then MoverEnabled(s, step) else WorldEnabled(s, step)
  }

  function Apply(s: State, step: Step): State
    requires Enabled(s, step)
  {
    if IsMover(step) then MoverRaw(s, step) else WorldRaw(s, step)
  }

  /** What the theorems rest on beyond what the code checks: no folder involved lies in another
      one's documents store, nor does the config folder; no leftover log lies beside the names the
      copy will use; no document stored in place already lies in the target's store; and closing the
      copy folds its log. */
  predicate Assumed(s: State, step: Step) {
    match step
    case LeaveLog(_) => false
    case Begin(to) =>
      && Placed(Options(s) + {to}, s.config)
      && Blank(s.fs, DbFile(to, Wal)) && BlankLog(Now(s.fs, Partial(to, Wal)))
    case Next =>
      s.run.phase.Locking? && ContentOf(s.fs, s.run.from).Some? ==>
        NoCapture(ContentOf(s.fs, s.run.from).value, s.run.from, s.run.to)
    case _ => true
  }

  // ----- what is at risk -----

  /** Committed since the log of the resolved folder last reached the disk. */
  predicate NotSynced(s: State, k: Key) {
    !Solid(s.fs, DbFile(Resolve(s), Wal)) && k in s.past.unsynced
  }

  /** The pointer's rename is not on disk yet, and the row says something else than before it. */
  predicate Exposed(s: State, k: Key) {
    Options(s) != {Resolve(s)} && k in s.past.books && (k in s.past.before ==> s.past.before[k] != s.past.books[k])
  }

  predicate AtRisk(s: State, k: Key) {
    NotSynced(s, k) || Exposed(s, k)
  }

  // ----- the invariant -----

  /** The resolved folder has its database under the final name; it says what the books say, and
      every stored document is there. */
  predicate Safe(s: State) {
    && Rooted(s.fs, Resolve(s))
    && BooksAt(s) == s.past.books
    && forall rel :: rel in s.past.papers ==> Now(s.fs, Doc(Resolve(s), rel)) == Some(Blob(s.past.papers[rel]))
  }

  predicate PointerWhole(s: State) {
    forall f :: f in OnDisk(s.fs, Pointer) ==> f == None || f.value.PointerTo?
  }

  predicate JournalOk(s: State) {
    forall f :: f in OnDisk(s.fs, Journal) && f.Some? && f.value.JournalOf? ==>
         && f.value.origin != f.value.destination
         && f.value.sum.preimage.Database?
         && f.value.sum.preimage.db in s.past.made
         && (f.value.origin == Resolve(s) ==> f.value.destination !in Options(s))
  }

  predicate Whole(slot: Slot) {
    slot.now != Some(Torn) && Some(Torn) !in slot.disk
  }

  /** No database is ever half-written under its final name. */
  ghost predicate MainsWhole(fs: Fs) {
    forall d :: Whole(At(fs, DbFile(d, Main)))
  }

  /** What row `k` of folder `q` says if `wal` is the log found beside its main file. */
  function Reads(fs: Fs, q: Path, wal: File, k: Key): Option<Meaning> {
    match Recover(Now(fs, DbFile(q, Main)), wal)
    case Some(db) => if k in db then Some(MeaningOf(db[k], q)) else None
    case None => None
  }

  function RowOf(books: map<Key, Meaning>, k: Key): Option<Meaning> {
    if k in books then Some(books[k]) else None
  }

  /** Every state of the log that may be on disk agrees with the books on a row that is not in
      `unsynced`; on each row that is, some state disagrees. */
  ghost predicate LogTruthful(s: State) {
    var q := Resolve(s);
    && (forall k, wal :: k in s.past.books && k !in s.past.unsynced && wal in OnDisk(s.fs, DbFile(q, Wal)) ==>
          Reads(s.fs, q, wal, k) == Some(s.past.books[k]))
    && (!Solid(s.fs, DbFile(q, Wal)) ==>
          forall k :: k in s.past.unsynced ==>
            && k in s.past.books
            && exists wal :: wal in OnDisk(s.fs, DbFile(q, Wal)) && Reads(s.fs, q, wal, k) != Some(s.past.books[k]))
  }

  /** A folder a power cut may bring back is durable and says what the books said before the rename. */
  predicate Reverts(s: State, q: Path) {
    Settled(s.fs, q) && Said(ContentOf(s.fs, q).value, q) == s.past.before
  }

  ghost predicate Core(s: State) {
    && PointerWhole(s)
    && JournalOk(s)
    && MainsWhole(s.fs)
    && Safe(s)
    && (forall q :: q in Options(s) && q != Resolve(s) ==> Reverts(s, q))
    && LogTruthful(s)
    && (forall pid :: pid in s.conns ==> s.conns[pid] == Resolve(s))
  }

  function Copy(s: State): Db {
    MovedCopy(s.run.src, s.run.from, s.run.to, s.run.auditId)
  }

  function OwnJournal(s: State): Content {
    JournalOf(s.run.from, s.run.to, Sha256(Database(Copy(s))))
  }

  predicate PreSwap(s: State) {
    && s.run.from == Resolve(s)
    && s.run.to != s.run.from
    && !StartsWith(s.run.to, s.run.from)
    && s.run.to !in Options(s)
    && Blank(s.fs, DbFile(s.run.to, Wal))
    && (RemovalPending(s) ==> s.run.dirty)
  }

  /** A database removed from (or replaced at) the target's final name may still come back. */
  predicate RemovalPending(s: State) {
    !(OnDisk(s.fs, DbFile(s.run.to, Main)) <= {None, Now(s.fs, DbFile(s.run.to, Main))})
  }

  /** The copy is unlike anything the target's final name may hold after a power cut. */
  predicate CopyIsNew(s: State) {
    Some(Database(Copy(s))) !in OnDisk(s.fs, DbFile(s.run.to, Main))
  }

  predicate Frozen(s: State) {
    && PreSwap(s)
    && s.lock == Some(s.run.from)
    && s.conns == map[]
    && Holds(s.fs, DbFile(s.run.from, Main), Database(s.run.src))
    && Holds(s.fs, DbFile(s.run.from, Wal), Log(map[]))
    && NoCapture(s.run.src, s.run.from, s.run.to)
    && forall rel :: rel in s.past.papers ==> rel in s.run.store && s.run.store[rel] == Blob(s.past.papers[rel])
  }

  predicate Copied(s: State, todo: set<Path>) {
    forall rel :: rel in s.run.store && rel !in todo ==> Holds(s.fs, Doc(s.run.to, rel), s.run.store[rel])
  }

  /** Locked, and nothing yet at the target's final name. */
  predicate Working(s: State) {
    Frozen(s) && Now(s.fs, DbFile(s.run.to, Main)).None?
  }

  /** The log of the partial copy once only `left` is still to be re-pointed. */
  predicate Logged(s: State, left: set<Key>) {
    && Holds(s.fs, Partial(s.run.to, Main), Database(s.run.src))
    && left <= StoreKeys(s.run.src, s.run.from)
    && LogOver(Now(s.fs, Partial(s.run.to, Wal))) == Rewrites(s.run.src, s.run.from, s.run.to, left)
    && s.run.rewritten == |StoreKeys(s.run.src, s.run.from)| - |left|
  }

  predicate Prepared(s: State) {
    && Copied(s, {})
    && Copy(s) in s.past.made
    && s.run.rewritten == |StoreKeys(s.run.src, s.run.from)|
  }

  predicate Finished(s: State) {
    && s.lock.None?
    && s.run.from != s.run.to
    && Options(s) == {s.run.to}
  }

  predicate AtCleaning(s: State, part: DbPart) {
    && s.lock.None? && PreSwap(s) && BlankLog(Now(s.fs, Partial(s.run.to, Wal)))
    && s.run.dirty && s.run.rewritten == 0
    && (if part.Main? then JournalMatches(s.fs, s.run.from, s.run.to) else Now(s.fs, DbFile(s.run.to, Main)).None?)
  }

  predicate AtLocking(s: State) {
    && s.lock.None? && PreSwap(s) && BlankLog(Now(s.fs, Partial(s.run.to, Wal)))
    && Now(s.fs, DbFile(s.run.to, Main)).None? && s.run.rewritten == 0
  }

  predicate AtCopyingDb(s: State, stage: nat) {
    && Working(s) && BlankLog(Now(s.fs, Partial(s.run.to, Wal))) && stage <= 2 && s.run.rewritten == 0
    && (stage == 2 ==> Now(s.fs, Partial(s.run.to, Main)) == Some(Database(s.run.src)))
  }

  predicate AtCopyingDocs(s: State, todo: set<Path>) {
    && Working(s) && BlankLog(Now(s.fs, Partial(s.run.to, Wal)))
    && Holds(s.fs, Partial(s.run.to, Main), Database(s.run.src))
    && todo <= s.run.store.Keys && Copied(s, todo)
    && s.run.rewritten == 0 && s.run.copied == 1 + |s.run.store| - |todo|
  }

  predicate AtCopyingDoc(s: State, todo: set<Path>, rel: Path, stage: nat) {
    && AtCopyingDocs(s, todo) && rel in todo && stage <= 2
    && (stage == 2 ==> Now(s.fs, Doc(s.run.to, rel)) == Some(s.run.store[rel]))
  }

  predicate AtRewriting(s: State, left: set<Key>) {
    Working(s) && Copied(s, {}) && Logged(s, left)
  }

  predicate AtClosing(s: State) {
    && Working(s) && Prepared(s) && CopyIsNew(s) && PartialView(s.fs, s.run.to) == Some(Copy(s))
    && MoveEntry(s.run.auditId) in LogOver(Now(s.fs, Partial(s.run.to, Wal)))
  }

  /** The copy is closed: checkpointed, its log gone. */
  predicate Closed(s: State) {
    && Working(s) && Prepared(s) && CopyIsNew(s) && Holds(s.fs, Partial(s.run.to, Main), Database(Copy(s)))
    && Now(s.fs, Partial(s.run.to, Wal)).None?
  }

  predicate AtJournaling(s: State, stage: nat) {
    && Closed(s) && stage <= 3
    && (stage == 1 ==> Now(s.fs, Journal) == Some(Torn))
    && (stage >= 2 ==> Now(s.fs, Journal) == Some(OwnJournal(s)))
    && (stage == 3 ==> Holds(s.fs, Journal, OwnJournal(s)))
  }

  predicate AtFinalising(s: State) {
    Closed(s) && Holds(s.fs, Journal, OwnJournal(s)) && Options(s) == {s.run.from}
  }

  predicate AtSyncingTarget(s: State) {
    && Frozen(s) && Prepared(s) && Now(s.fs, DbFile(s.run.to, Main)) == Some(Database(Copy(s)))
    && Holds(s.fs, Journal, OwnJournal(s)) && Now(s.fs, Partial(s.run.to, Wal)).None?
    && Options(s) == {s.run.from}
  }

  /** The copy has its final name, durably. */
  predicate Arrived(s: State) {
    && Frozen(s) && Prepared(s) && Holds(s.fs, DbFile(s.run.to, Main), Database(Copy(s)))
    && Solid(s.fs, DbFile(s.run.to, Wal)) && Holds(s.fs, Journal, OwnJournal(s))
    && OnDisk(s.fs, Partial(s.run.to, Wal)) == {None} && Options(s) == {s.run.from}
  }

  predicate AtWritingTmp(s: State, stage: nat) {
    Arrived(s) && stage <= 2 && (stage == 2 ==> Now(s.fs, PointerTmp) == Some(PointerTo(s.run.to)))
  }

  predicate AtSwapping(s: State) {
    Arrived(s) && Holds(s.fs, PointerTmp, PointerTo(s.run.to))
  }

  predicate AtSyncingConfig(s: State) {
    && s.lock == Some(s.run.from) && s.run.from != s.run.to && s.run.to == Resolve(s)
    && Holds(s.fs, Journal, OwnJournal(s))
  }

  predicate AtReadingBack(s: State) {
    s.lock == Some(s.run.from) && s.run.from != s.run.to && Options(s) == {s.run.to}
  }

  predicate PhaseOk(s: State) {
    match s.run.phase
    case Idle => s.lock.None?
    case Cleaning(part) => AtCleaning(s, part)
    case Locking => AtLocking(s)
    case CopyingDb(stage) => AtCopyingDb(s, stage)
    case CopyingDocs(todo) => AtCopyingDocs(s, todo)
    case CopyingDoc(todo, rel, stage) => AtCopyingDoc(s, todo, rel, stage)
    case Rewriting(left) => AtRewriting(s, left)
    case Auditing => AtRewriting(s, {})
    case Closing => AtClosing(s)
    case Journaling(stage) => AtJournaling(s, stage)
    case Finalising => AtFinalising(s)
    case SyncingTarget => AtSyncingTarget(s)
    case WritingTmp(stage) => AtWritingTmp(s, stage)
    case Swapping => AtSwapping(s)
    case SyncingConfig => AtSyncingConfig(s)
    case ReadingBack => AtReadingBack(s)
    case Deleting(_) => Finished(s)
    case DeletingDocs(_) => Finished(s)
    case DeletingJournal => Finished(s)
  }

  ghost predicate Inv(s: State) {
    Core(s) && PhaseOk(s)
  }
}
