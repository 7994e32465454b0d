/**
 The book-keeping database as a map from row keys to values, its write-ahead log as a map of
 overrides, and the rewriting of stored document paths when the data folder moves.
 */
module Books {
  import opened Wrappers
  import opened Paths

  /** An ordinary row, or the audit row a data-folder move leaves behind. */
  datatype Key = Entry(id: string) | MoveEntry(id: string)

  /** `Location` is a stored absolute `documents.file_path`. */
  datatype Value =
    | Text(text: string)
    | Location(path: Path)
    | Moved(origin: Path, destination: Path, rewritten: nat)

  type Db = map<Key, Value>

  /** Whether a value is a document path inside the store of `dir`. */
  predicate InStore(v: Value, dir: Path) {
    v.Location? && StartsWith(v.path, DocumentsDir(dir))
  }

  /** One row's value after moving from `from` to `to`. */
  function Repoint(v: Value, from: Path, to: Path): (r: Value)
    ensures !InStore(v, from) ==> r == v
    ensures InStore(v, from) ==>
      r.Location? && StripPrefix(r.path, DocumentsDir(to)) == StripPrefix(v.path, DocumentsDir(from))
  {
    if v.Location? then
      match StripPrefix(v.path, DocumentsDir(from))
      case Some(rel) => Location(DocumentsDir(to) + rel)
      case None => v
    else v
  }

  /** The localised image of a database: store paths re-pointed, everything else kept. */
  function Localised(db: Db, from: Path, to: Path): (r: Db)
    ensures r.Keys == db.Keys
  {
    map k | k in db :: Repoint(db[k], from, to)
  }

  /** The rows whose stored path lies in the store of `dir`. */
  function StoreKeys(db: Db, dir: Path): set<Key> {
    set k | k in db && InStore(db[k], dir)
  }

  /** The updates the move's rewriting loop has written once only `todo` is left. */
  function Rewrites(db: Db, from: Path, to: Path, todo: set<Key>): Db {
    map k | k in db && InStore(db[k], from) && k !in todo :: Repoint(db[k], from, to)
  }

  /** The database a completed move leaves at the target. */
  function MovedCopy(db: Db, from: Path, to: Path, auditId: string): Db {
    Localised(db, from, to)[MoveEntry(auditId) := Moved(from, to, |StoreKeys(db, from)|)]
  }

  /** A stored path below the folder's `documents`. */
  predicate UnderDocuments(v: Value, dir: Path) {
    v.Location? && dir + ["documents"] <= v.path
  }

  /** The moved copy, row by row: a path below the old `documents` keeps its name below the new one,
      every other row is kept, and one audit row says what was done. */
  lemma MovedRowByRow(db: Db, from: Path, to: Path, auditId: string, k: Key, rel: Path)
    ensures MovedCopy(db, from, to, auditId).Keys == db.Keys + {MoveEntry(auditId)}
    ensures MovedCopy(db, from, to, auditId)[MoveEntry(auditId)]
      == Moved(from, to, |set j | j in db && UnderDocuments(db[j], from)|)
    ensures k in db && k != MoveEntry(auditId) && db[k] == Location(from + ["documents"] + rel) ==>
      MovedCopy(db, from, to, auditId)[k] == Location(to + ["documents"] + rel)
    ensures k in db && k != MoveEntry(auditId) && !UnderDocuments(db[k], from) ==>
      MovedCopy(db, from, to, auditId)[k] == db[k]
  {
    assert StoreKeys(db, from) == set j | j in db && UnderDocuments(db[j], from);
  }

  /** What a row says to the user, wherever the folder is: a document of the store goes by its
      name there, a document stored in place by its path. */
  datatype Meaning = Says(value: Value) | InPlace(path: Path) | Paper(rel: Path)

  function MeaningOf(v: Value, dir: Path): Meaning {
    if v.Location? then
      match StripPrefix(v.path, DocumentsDir(dir))
      case Some(rel) => Paper(rel)
      case None => InPlace(v.path)
    else Says(v)
  }

  /** What a database in `dir` says, without the move's own audit rows. */
  function Said(db: Db, dir: Path): map<Key, Meaning> {
    map k | k in db && k.Entry? :: MeaningOf(db[k], dir)
  }

  /** No in-place document path of a database in `home` already names a file in the store of `q`. */
  predicate NoCapture(db: Db, home: Path, q: Path) {
    forall k :: k in db && InStore(db[k], q) ==> InStore(db[k], home)
  }

  lemma OverlayRewrites(db: Db, from: Path, to: Path)
    ensures Rewrites(db, from, to, StoreKeys(db, from)) == map[]
    ensures db + Rewrites(db, from, to, {}) == Localised(db, from, to)
  {
  }

  /** The finished log over the source is the moved copy. */
  lemma OverlayMove(db: Db, from: Path, to: Path, auditId: string)
    ensures db + Rewrites(db, from, to, {})[MoveEntry(auditId) := Moved(from, to, |StoreKeys(db, from)|)]
         == MovedCopy(db, from, to, auditId)
  {
  }

  /** Re-pointing one more row is one more override in the log. */
  lemma RewriteOne(db: Db, from: Path, to: Path, todo: set<Key>, k: Key)
    requires k in todo && todo <= StoreKeys(db, from)
    ensures Rewrites(db, from, to, todo)[k := Repoint(db[k], from, to)] == Rewrites(db, from, to, todo - {k})
  {
  }

  lemma RepointKeepsMeaning(v: Value, from: Path, to: Path)
    requires InStore(v, to) ==> InStore(v, from)
    ensures MeaningOf(Repoint(v, from, to), to) == MeaningOf(v, from)
  {
  }

  /** The moved copy says in its new folder what the source says in the old one, to the last row. */
  lemma CopySaysTheSame(db: Db, from: Path, to: Path, auditId: string)
    requires NoCapture(db, from, to)
    ensures Said(MovedCopy(db, from, to, auditId), to) == Said(db, from)
  {
    forall k | k in db && k.Entry?
      ensures MeaningOf(Repoint(db[k], from, to), to) == MeaningOf(db[k], from)
    {
      RepointKeepsMeaning(db[k], from, to);
    }
  }

  lemma SaidOverlay(m: Db, w: Db, dir: Path)
    ensures Said(m + w, dir) == Said(m, dir) + Said(w, dir)
  {
  }

  /** Two moves in a row re-point exactly as one direct move does if and only if the first target's
      store captured none of the paths stored in place, or the second move went nowhere. */
  lemma RelocatedTwice(db: Db, a: Path, b: Path, c: Path)
    ensures Localised(Localised(db, a, b), b, c) == Localised(db, a, c) <==> NoCapture(db, a, b) || b == c
  {
    if !NoCapture(db, a, b) && b != c {
      var k :| k in db && InStore(db[k], b) && !InStore(db[k], a);
      var rel := StripPrefix(db[k].path, DocumentsDir(b)).value;
      assert Localised(Localised(db, a, b), b, c)[k] == Location(DocumentsDir(c) + rel);
      assert Localised(db, a, c)[k] == Location(DocumentsDir(b) + rel);
      SameNameElsewhere(b, c, rel);
    }
  }

  lemma SameNameElsewhere(b: Path, c: Path, rel: Path)
    ensures DocumentsDir(c) + rel == DocumentsDir(b) + rel <==> b == c
  {
    if DocumentsDir(c) + rel == DocumentsDir(b) + rel {
      assert |DocumentsDir(c)| == |DocumentsDir(b)|;
      assert c == (DocumentsDir(c) + rel)[..|c|] && b == (DocumentsDir(b) + rel)[..|b|];
    }
  }

  /** Moving there and back again restores every path exactly when the first target's store
      holds none of the paths stored in place. */
  lemma RoundTrip(db: Db, a: Path, b: Path)
    requires a != b
    ensures Localised(Localised(db, a, b), b, a) == db <==> NoCapture(db, a, b)
  {
  }
}
