/**
 An abstract file system with a volatile and a durable side. Each file has the content every
 process sees now, and the set of contents a power cut may leave behind. Writing without
 `sync_all` may leave a torn file; `sync_all` makes content and creation durable; renames and
 removals become durable only when their directory is synced.
 */
module Disk {
  import opened Wrappers
  import opened Paths
  import opened Books

  type Bytes = seq<bv8>

  /** SHA-256 as a collision-free digest: equal digests come from equal contents. */
  datatype Digest = Digest(preimage: Content)

  datatype Content =
    | PointerTo(dir: Path)
    | JournalOf(origin: Path, destination: Path, sum: Digest)
    | Database(db: Db)
    | Log(over: Db)
    | Blob(bytes: Bytes)
    | Torn

  function Sha256(c: Content): Digest {
    Digest(c)
  }

  /** `None` is an absent file. */
  type File = Option<Content>

  datatype Slot = Slot(now: File, disk: set<File>)

  type Fs = map<FileId, Slot>

  function At(fs: Fs, id: FileId): Slot {
    if id in fs then fs[id] else Slot(None, {None})
  }

  function Now(fs: Fs, id: FileId): File {
    At(fs, id).now
  }

  /** What a power cut may leave; what processes see may always have reached the disk. */
  function OnDisk(fs: Fs, id: FileId): set<File> {
    At(fs, id).disk + {Now(fs, id)}
  }

  /** The file is fully durable: a power cut leaves what every process sees. */
  predicate Solid(fs: Fs, id: FileId) {
    OnDisk(fs, id) == {Now(fs, id)}
  }

  predicate Holds(fs: Fs, id: FileId, c: Content) {
    Now(fs, id) == Some(c) && OnDisk(fs, id) == {Some(c)}
  }

  /** Create or truncate: until the write completes the file is torn. */
  function Truncate(fs: Fs, id: FileId): Fs {
    fs[id := Slot(Some(Torn), OnDisk(fs, id) + {Some(Torn)})]
  }

  /** The whole content is written, but nothing forces it to the disk yet. */
  function Write(fs: Fs, id: FileId, c: Content): Fs {
    fs[id := Slot(Some(c), OnDisk(fs, id) + {Some(Torn), Some(c)})]
  }

  /** `File::sync_all`. */
  function SyncFile(fs: Fs, id: FileId): Fs {
    fs[id := Slot(Now(fs, id), {Now(fs, id)})]
  }

  function Remove(fs: Fs, id: FileId): Fs {
    fs[id := Slot(None, OnDisk(fs, id) + {None})]
  }

  /** `fs::rename`: the target may still revert, and it carries whatever the source had on disk. */
  function Rename(fs: Fs, a: FileId, b: FileId): Fs {
    fs[b := Slot(Now(fs, a), OnDisk(fs, b) + OnDisk(fs, a))][a := Slot(None, OnDisk(fs, a) + {None})]
  }

  datatype Directory = Config | Folder(dir: Path)

  predicate Inside(id: FileId, d: Directory) {
    match id
    case Pointer => d == Config
    case PointerTmp => d == Config
    case Journal => d == Config
    case DbFile(dir, _) => d == Folder(dir)
    case Partial(dir, _) => d == Folder(dir)
    case Doc(_, _) => false
  }

  /** Syncing a directory settles its entries, not the contents of files never synced. */
  function Settle(s: Slot): Slot {
    if s.now.None? then Slot(None, {None})
    else if Some(Torn) in s.disk then s
    else Slot(s.now, {s.now})
  }

  /** `fsync_dir`. */
  function SyncDir(fs: Fs, d: Directory): Fs {
    map id | id in fs :: if Inside(id, d) then Settle(fs[id]) else fs[id]
  }

  /** A file system a power cut may leave: every file takes one of its durable contents. */
  predicate CutOf(fs: Fs, cut: Fs) {
    && cut.Keys == fs.Keys
    && forall id :: id in fs ==> cut[id].now in OnDisk(fs, id) && cut[id].disk == {cut[id].now}
  }

  /** Some power cut leaves the file as `f`. */
  ghost predicate MayComeBackAs(fs: Fs, id: FileId, f: File) {
    exists cut :: CutOf(fs, cut) && Now(cut, id) == f
  }

  lemma ComesBackExactly(fs: Fs, id: FileId, f: File)
    ensures MayComeBackAs(fs, id, f) <==> f in OnDisk(fs, id)
  {
    if f in OnDisk(fs, id) {
      var cut := map i | i in fs :: var g := if i == id then f else fs[i].now; Slot(g, {g});
      assert CutOf(fs, cut) && Now(cut, id) == f;
    }
  }

  /** Until it is synced a written file may come back torn, new, or as it might have before; a removed
      one gone or as before; a renamed one as either name might have. Once synced it comes back as it is. */
  lemma UnsyncedExactly(fs: Fs, id: FileId, c: Content, b: FileId, f: File)
    requires b != id
    ensures MayComeBackAs(Truncate(fs, id), id, f) <==> f == Some(Torn) || MayComeBackAs(fs, id, f)
    ensures MayComeBackAs(Write(fs, id, c), id, f) <==> f == Some(c) || f == Some(Torn) || MayComeBackAs(fs, id, f)
    ensures MayComeBackAs(Remove(fs, id), id, f) <==> f == None || MayComeBackAs(fs, id, f)
    ensures MayComeBackAs(Rename(fs, id, b), b, f) <==> MayComeBackAs(fs, id, f) || MayComeBackAs(fs, b, f)
    ensures MayComeBackAs(Rename(fs, id, b), id, f) <==> f == None || MayComeBackAs(fs, id, f)
    ensures MayComeBackAs(SyncFile(fs, id), id, f) <==> f == Now(fs, id)
  {
    ComesBackExactly(fs, id, f);
    ComesBackExactly(fs, b, f);
    ComesBackExactly(Truncate(fs, id), id, f);
    ComesBackExactly(Write(fs, id, c), id, f);
    ComesBackExactly(Remove(fs, id), id, f);
    ComesBackExactly(Rename(fs, id, b), b, f);
    ComesBackExactly(Rename(fs, id, b), id, f);
    ComesBackExactly(SyncFile(fs, id), id, f);
  }

  /** Syncing a directory brings its entries down, and the content of every file that was synced. */
  lemma DirectorySyncExactly(fs: Fs, d: Directory, id: FileId, f: File)
    ensures MayComeBackAs(SyncDir(fs, d), id, f) <==>
      if Inside(id, d) && (Now(fs, id) == None || !(id in fs && Some(Torn) in fs[id].disk)) then f == Now(fs, id)
      else MayComeBackAs(fs, id, f)
  {
    ComesBackExactly(fs, id, f);
    ComesBackExactly(SyncDir(fs, d), id, f);
  }

  /** What SQLite reads from a main file and its log. A log applies to whatever main file it
      lies beside; an unreadable log is ignored. */
  function Recover(main: File, wal: File): Option<Db> {
    match main
    case Some(Database(m)) =>
      (match wal
       case Some(Log(w)) => Some(m + w)
       case _ => Some(m))
    case _ => None
  }

  /** The logical content of the database in a folder. */
  function ContentOf(fs: Fs, dir: Path): Option<Db> {
    Recover(Now(fs, DbFile(dir, Main)), Now(fs, DbFile(dir, Wal)))
  }

  /** The folder has a database under its final name whose main file is durable. What its log adds
      may not be on disk yet. */
  predicate Rooted(fs: Fs, dir: Path) {
    Solid(fs, DbFile(dir, Main)) && ContentOf(fs, dir).Some?
  }

  /** The log is durable as well: a power cut leaves exactly this content. */
  predicate Settled(fs: Fs, dir: Path) {
    Rooted(fs, dir) && Solid(fs, DbFile(dir, Wal))
  }

  /** The overrides a log carries. */
  function LogOver(f: File): Db {
    match f
    case Some(Log(w)) => w
    case _ => map[]
  }

  /** Nothing in it for SQLite to replay: absent, empty or unreadable. */
  predicate BlankLog(f: File) {
    LogOver(f) == map[]
  }

  /** Neither now nor after a power cut does the log carry anything. */
  predicate Silent(fs: Fs, id: FileId) {
    forall f :: f in OnDisk(fs, id) ==> BlankLog(f)
  }

  /** Silent, and no write to it is under way. */
  predicate Blank(fs: Fs, id: FileId) {
    Silent(fs, id) && Some(Torn) !in OnDisk(fs, id)
  }

  /** The documents store of a folder, as `walk_files` lists it. */
  function StoreOf(fs: Fs, dir: Path): map<Path, Content> {
    map rel | rel in StoreNames(fs, dir) :: Now(fs, Doc(dir, rel)).value
  }

  function StoreNames(fs: Fs, dir: Path): (r: set<Path>)
    ensures forall rel :: rel in r <==> Now(fs, Doc(dir, rel)).Some?
  {
    set id | id in fs && id.Doc? && id.dir == dir && fs[id].now.Some? :: id.rel
  }

  // ----- where creating a file is not enough -----

  /** A weaker `sync_all`: the content is on disk, but the entry of a file just created is not. */
  function SyncContent(fs: Fs, id: FileId): Fs {
    fs[id := Slot(Now(fs, id), {Now(fs, id)} + (if None in OnDisk(fs, id) then {None} else {}))]
  }

  /** Copying one file: create, write, sync. */
  function CopyOf(fs: Fs, id: FileId, c: Content): Fs {
    Write(Truncate(fs, id), id, c)
  }

  /** What the copied documents rest on. If syncing a file did not settle its directory entry, a
      copied file would survive every power cut exactly when a file of that name was durably there
      before; settling its directory afterwards would do in every case. */
  lemma CopiesRestOnTheEntry(fs: Fs, id: FileId, c: Content)
    requires c != Torn
    ensures Holds(SyncFile(CopyOf(fs, id, c), id), id, c)
    ensures Holds(SyncContent(CopyOf(fs, id, c), id), id, c) <==> None !in OnDisk(fs, id)
    ensures Settle(At(SyncContent(CopyOf(fs, id, c), id), id)) == Slot(Some(c), {Some(c)})
  {
    var copied := CopyOf(fs, id, c);
    assert None in OnDisk(copied, id) <==> None in OnDisk(fs, id);
    assert None in OnDisk(fs, id) ==> None in OnDisk(SyncContent(copied, id), id);
    if None !in OnDisk(fs, id) {
      assert OnDisk(SyncContent(copied, id), id) == {Some(c)};
    }
  }
}
