/**
 Folder and file paths of the movable data folder, as sequences of path components, and the
 prefix algebra the move relies on: which paths it writes, which it later deletes, and when
 the two can meet.
 */
module Paths {
  import opened Wrappers

  /** An absolute, canonical path: its components from the root down. */
  type Path = seq<string>

  const DOCUMENTS_DIR := "documents"

  /** The database file, its write-ahead log and its shared-memory index. */
  datatype DbPart = Main | Wal | Shm

  /** Every file the data-folder protocol reads or writes. */
  datatype FileId =
    | Pointer
    | PointerTmp
    | Journal
    | DbFile(dir: Path, part: DbPart)
    | Partial(dir: Path, part: DbPart)
    | Doc(dir: Path, rel: Path)

  function DocumentsDir(dir: Path): Path {
    dir + [DOCUMENTS_DIR]
  }

  /** `Path::starts_with`: component-wise prefix. */
  predicate StartsWith(p: Path, base: Path) {
    base <= p
  }

  /** `Path::strip_prefix`. */
  function StripPrefix(p: Path, base: Path): (r: Option<Path>)
    ensures r.Some? ==> p == base + r.value
    ensures r.None? <==> !StartsWith(p, base)
  {
    if base <= p then Some(p[|base|..]) else None
  }

  function Suffix(part: DbPart): string {
    match part
    case Main => ""
    case Wal => "-wal"
    case Shm => "-shm"
  }

  function FinalName(part: DbPart): string {
    "slipscan.db" + Suffix(part)
  }

  function PartialName(part: DbPart): string {
    "slipscan.db.partial" + Suffix(part)
  }

  /** Where a file lives, given the fixed config directory. */
  function PathOf(id: FileId, config: Path): Path {
    match id
    case Pointer => config + ["data_dir.json"]
    case PointerTmp => config + ["data_dir.json.tmp"]
    case Journal => config + ["data_move.json"]
    case DbFile(dir, part) => dir + [FinalName(part)]
    case Partial(dir, part) => dir + [PartialName(part)]
    case Doc(dir, rel) => DocumentsDir(dir) + rel
  }

  /** The protocol's files by their names on disk. */
  lemma NamesOnDisk(dir: Path, rel: Path, config: Path)
    ensures PathOf(Pointer, config) == config + ["data_dir.json"]
    ensures PathOf(PointerTmp, config) == config + ["data_dir.json.tmp"]
    ensures PathOf(Journal, config) == config + ["data_move.json"]
    ensures PathOf(DbFile(dir, Main), config) == dir + ["slipscan.db"]
    ensures PathOf(DbFile(dir, Wal), config) == dir + ["slipscan.db-wal"]
    ensures PathOf(DbFile(dir, Shm), config) == dir + ["slipscan.db-shm"]
    ensures PathOf(Partial(dir, Main), config) == dir + ["slipscan.db.partial"]
    ensures PathOf(Partial(dir, Wal), config) == dir + ["slipscan.db.partial-wal"]
    ensures PathOf(Partial(dir, Shm), config) == dir + ["slipscan.db.partial-shm"]
    ensures PathOf(Doc(dir, rel), config) == dir + ["documents"] + rel
  {
    assert FinalName(Main) == "slipscan.db" && PartialName(Main) == "slipscan.db.partial";
    assert FinalName(Wal) == "slipscan.db-wal" && FinalName(Shm) == "slipscan.db-shm";
    assert PartialName(Wal) == "slipscan.db.partial-wal" && PartialName(Shm) == "slipscan.db.partial-shm";
  }

  /** The files a move from `from` to `to` writes at the target. */
  predicate Written(id: FileId, to: Path) {
    match id
    case DbFile(dir, _) => dir == to
    case Partial(dir, _) => dir == to
    case Doc(dir, rel) => dir == to && rel != []
    case _ => false
  }

  /** The files the same move deletes from the old folder once the pointer has swapped. */
  predicate Deleted(id: FileId, from: Path) {
    match id
    case DbFile(dir, _) => dir == from
    case Doc(dir, rel) => dir == from && rel != []
    case _ => false
  }

  /** The folder arrangements in which a written path can also be a deleted one. */
  predicate Clash(from: Path, to: Path) {
    || to == from
    || StartsWith(to, DocumentsDir(from))
    || StartsWith(from, DocumentsDir(to))
  }

  lemma NamesDiffer(a: DbPart, b: DbPart)
    ensures FinalName(a) == FinalName(b) ==> a == b
    ensures PartialName(a) == PartialName(b) ==> a == b
    ensures FinalName(a) != PartialName(b)
    ensures FinalName(a) != DOCUMENTS_DIR && PartialName(a) != DOCUMENTS_DIR
    ensures FinalName(a)[0] == 's' && PartialName(a)[0] == 's'
  {
    assert FinalName(a)[0] == 's' && PartialName(a)[0] == 's' && DOCUMENTS_DIR[0] == 'd';
    var fa, fb, pb := FinalName(a), FinalName(b), PartialName(b);
    assert |fa| > 11 ==> fa[11] == '-';
    assert pb[11] == '.';
    if a != b {
      assert a == Wal && b == Shm ==> fa[12] == 'w' && fb[12] == 's';
      assert a == Shm && b == Wal ==> fa[12] == 's' && fb[12] == 'w';
      var pa := PartialName(a);
      assert a == Wal && b == Shm ==> pa[20] == 'w' && pb[20] == 's';
      assert a == Shm && b == Wal ==> pa[20] == 's' && pb[20] == 'w';
    }
  }

  /** Two one-component extensions meet only when both halves agree. */
  lemma LastComponent(a: Path, x: string, b: Path, y: string)
    requires a + [x] == b + [y]
    ensures a == b && x == y
  {
    assert (a + [x])[|a|] == x && (b + [y])[|b|] == y;
    assert a == (a + [x])[..|a|] && b == (b + [y])[..|b|];
  }

  /** A file directly in `d` that is also below `e`'s store puts `d` itself below that store. */
  lemma FileInStore(d: Path, x: string, e: Path, rel: Path)
    requires rel != [] && d + [x] == DocumentsDir(e) + rel
    ensures StartsWith(d, DocumentsDir(e))
  {
    var whole := DocumentsDir(e) + rel;
    assert d == whole[..|whole| - 1];
    assert whole[..|whole| - 1] == DocumentsDir(e) + rel[..|rel| - 1];
  }

  /** Two stores share a path only when one folder contains the other. */
  lemma StoresShare(d: Path, r: Path, e: Path, q: Path)
    requires DocumentsDir(d) + r == DocumentsDir(e) + q
    ensures d == e || StartsWith(d, DocumentsDir(e)) || StartsWith(e, DocumentsDir(d))
    ensures d == e ==> r == q
  {
    var whole := DocumentsDir(d) + r;
    assert d == whole[..|d|] && e == whole[..|e|];
    assert DocumentsDir(d) == whole[..|d| + 1] && DocumentsDir(e) == whole[..|e| + 1];
    if |d| == |e| {
      assert r == whole[|d| + 1..] && q == whole[|e| + 1..];
    } else if |d| < |e| {
      assert DocumentsDir(d) == e[..|d| + 1];
    } else {
      assert DocumentsDir(e) == d[..|e| + 1];
    }
  }

  /** No path of one folder's store lies in the store of another, unless one folder does. */
  lemma StoresApart(d: Path, e: Path, rel: Path)
    requires d != e && !StartsWith(d, DocumentsDir(e)) && !StartsWith(e, DocumentsDir(d))
    ensures !StartsWith(DocumentsDir(d) + rel, DocumentsDir(e))
  {
    if StartsWith(DocumentsDir(d) + rel, DocumentsDir(e)) {
      StoresShare(d, rel, e, StripPrefix(DocumentsDir(d) + rel, DocumentsDir(e)).value);
      assert false;
    }
  }

  /** Nothing the move writes is among what it deletes, unless the folders clash. */
  lemma WrittenNotDeleted(from: Path, to: Path, config: Path, w: FileId, d: FileId)
    requires !Clash(from, to) && Written(w, to) && Deleted(d, from)
    ensures PathOf(w, config) != PathOf(d, config)
  {
    if PathOf(w, config) == PathOf(d, config) {
      match (w, d) {
        case (DbFile(_, p), DbFile(_, q)) => LastComponent(to, FinalName(p), from, FinalName(q));
        case (Partial(_, p), DbFile(_, q)) => LastComponent(to, PartialName(p), from, FinalName(q));
        case (Doc(_, r), DbFile(_, q)) => FileInStore(from, FinalName(q), to, r);
        case (DbFile(_, p), Doc(_, r)) => FileInStore(to, FinalName(p), from, r);
        case (Partial(_, p), Doc(_, r)) => FileInStore(to, PartialName(p), from, r);
        case (Doc(_, r), Doc(_, q)) => StoresShare(to, r, from, q);
      }
      assert false;
    }
  }

  /** When the folders clash, some path is both written and deleted. */
  lemma ClashMeets(from: Path, to: Path, config: Path) returns (w: FileId, d: FileId)
    requires Clash(from, to)
    ensures Written(w, to) && Deleted(d, from) && PathOf(w, config) == PathOf(d, config)
  {
    if to == from {
      w, d := DbFile(to, Main), DbFile(from, Main);
    } else if StartsWith(to, DocumentsDir(from)) {
      var rel := to[|from| + 1..] + [FinalName(Main)];
      w, d := DbFile(to, Main), Doc(from, rel);
      assert to == DocumentsDir(from) + to[|from| + 1..];
      assert to + [FinalName(Main)] == DocumentsDir(from) + rel;
    } else {
      var rel := from[|to| + 1..] + [FinalName(Main)];
      w, d := Doc(to, rel), DbFile(from, Main);
      assert from == DocumentsDir(to) + from[|to| + 1..];
      assert from + [FinalName(Main)] == DocumentsDir(to) + rel;
    }
  }

  /** The move never deletes a path it wrote exactly when the folders do not clash. The move
      refuses a target inside the current folder, which leaves one clash open: a current
      folder inside the target's documents store. */
  lemma DisjointExactlyWhenNoClash(from: Path, to: Path, config: Path)
    ensures (forall w: FileId, d: FileId :: Written(w, to) && Deleted(d, from) ==>
          PathOf(w, config) != PathOf(d, config))
            <==> !Clash(from, to)
    ensures !StartsWith(to, from) ==> (Clash(from, to) <==> StartsWith(from, DocumentsDir(to)))
  {
    if Clash(from, to) {
      var w, d := ClashMeets(from, to, config);
    } else {
      forall w: FileId, d: FileId | Written(w, to) && Deleted(d, from)
        ensures PathOf(w, config) != PathOf(d, config)
      {
        WrittenNotDeleted(from, to, config, w, d);
      }
    }
    if StartsWith(to, DocumentsDir(from)) {
      assert from <= DocumentsDir(from) <= to;
    }
  }

  /** No other file of the protocol shares the path of a folder's database, unless the folder lies
      in the documents store the file belongs to. */
  lemma DatabasePathIsApart(id: FileId, d: Path, config: Path)
    requires id != DbFile(d, Main) && (id.Doc? ==> !StartsWith(d, DocumentsDir(id.dir)))
    ensures PathOf(id, config) != PathOf(DbFile(d, Main), config)
  {
    if PathOf(id, config) == PathOf(DbFile(d, Main), config) {
      if id.Doc? && id.rel != [] {
        FileInStore(d, FinalName(Main), id.dir, id.rel);
      } else {
        NotTheDatabase(id, d, config);
      }
      assert false;
    }
  }

  lemma NotTheDatabase(id: FileId, d: Path, config: Path)
    requires id != DbFile(d, Main) && (id.Doc? ==> id.rel == [])
    ensures PathOf(id, config) != PathOf(DbFile(d, Main), config)
  {
    if PathOf(id, config) == PathOf(DbFile(d, Main), config) {
      if id.Doc? {
        assert DocumentsDir(id.dir) + id.rel == DocumentsDir(id.dir);
        LastComponent(id.dir, DOCUMENTS_DIR, d, FinalName(Main));
        NamesDiffer(Main, Main);
      } else {
        LastComponent(Home(id, config), Name(id), d, FinalName(Main));
        NameDeterminesKind(id, DbFile(d, Main));
      }
      assert false;
    }
  }

  /** Emptying the documents store of `from` deletes another folder's database exactly when that
      folder lies in the store. */
  lemma StoreDeletesExactlyWhatItContains(from: Path, d: Path, config: Path)
    requires d != from
    ensures (exists id: FileId :: Deleted(id, from) && PathOf(id, config) == PathOf(DbFile(d, Main), config))
       <==> StartsWith(d, DocumentsDir(from))
  {
    if StartsWith(d, DocumentsDir(from)) {
      var rel := d[|from| + 1..] + [FinalName(Main)];
      assert d == DocumentsDir(from) + d[|from| + 1..];
      assert d + [FinalName(Main)] == DocumentsDir(from) + rel;
      assert Deleted(Doc(from, rel), from) && PathOf(Doc(from, rel), config) == PathOf(DbFile(d, Main), config);
    } else {
      forall id: FileId | Deleted(id, from)
        ensures PathOf(id, config) != PathOf(DbFile(d, Main), config)
      {
        DatabasePathIsApart(id, d, config);
      }
    }
  }

  /** The config directory holds the pointer and the journal; it must not sit inside a store. */
  predicate Placed(dirs: set<Path>, config: Path) {
    && (forall d :: d in dirs ==> !StartsWith(config, DocumentsDir(d)))
    && (forall d, e :: d in dirs && e in dirs ==> !StartsWith(d, DocumentsDir(e)))
  }

  predicate Belongs(id: FileId, dirs: set<Path>) {
    match id
    case DbFile(dir, _) => dir in dirs
    case Partial(dir, _) => dir in dirs
    case Doc(dir, rel) => dir in dirs && rel != []
    case _ => true
  }

  /** Distinct file identities are distinct paths, so the protocol may be reasoned about by
      identity: no folder involved lies inside another one's documents store. The config
      directory may itself be a data folder. */
  lemma IdentityIsPath(dirs: set<Path>, config: Path, a: FileId, b: FileId)
    requires Placed(dirs, config) && Belongs(a, dirs) && Belongs(b, dirs)
    requires PathOf(a, config) == PathOf(b, config)
    ensures a == b
  {
    if a.Doc? && b.Doc? {
      StoresShare(a.dir, a.rel, b.dir, b.rel);
    } else if a.Doc? {
      FileInStore(Home(b, config), Name(b), a.dir, a.rel);
      assert false;
    } else if b.Doc? {
      FileInStore(Home(a, config), Name(a), b.dir, b.rel);
      assert false;
    } else {
      LastComponent(Home(a, config), Name(a), Home(b, config), Name(b));
      NameDeterminesKind(a, b);
    }
  }

  function Home(id: FileId, config: Path): Path
    requires !id.Doc?
  {
    match id
    case DbFile(dir, _) => dir
    case Partial(dir, _) => dir
    case _ => config
  }

  function Name(id: FileId): string
    requires !id.Doc?
  {
    match id
    case Pointer => "data_dir.json"
    case PointerTmp => "data_dir.json.tmp"
    case Journal => "data_move.json"
    case DbFile(_, part) => FinalName(part)
    case Partial(_, part) => PartialName(part)
  }

  lemma NameDeterminesKind(a: FileId, b: FileId)
    requires !a.Doc? && !b.Doc? && Name(a) == Name(b)
    ensures a.Pointer? <==> b.Pointer?
    ensures a.PointerTmp? <==> b.PointerTmp?
    ensures a.Journal? <==> b.Journal?
    ensures a.DbFile? <==> b.DbFile?
    ensures a.DbFile? ==> a.part == b.part
    ensures a.Partial? ==> b.Partial? && a.part == b.part
  {
    var n := Name(a);
    if a.DbFile? || a.Partial? {
      NamesDiffer(a.part, if b.DbFile? || b.Partial? then b.part else Main);
    }
    if b.DbFile? || b.Partial? {
      NamesDiffer(b.part, if a.DbFile? || a.Partial? then a.part else Main);
    }
    assert a.Pointer? ==> n[0] == 'd' && n[5] == 'd' && |n| == 13;
    assert a.Journal? ==> n[0] == 'd' && n[5] == 'm' && |n| == 14;
    assert a.PointerTmp? ==> n[0] == 'd' && |n| == 17;
    assert b.Pointer? ==> n[0] == 'd' && n[5] == 'd' && |n| == 13;
    assert b.Journal? ==> n[0] == 'd' && n[5] == 'm' && |n| == 14;
    assert b.PointerTmp? ==> n[0] == 'd' && |n| == 17;
  }
}
