/** The move machine's invariant survives everything other processes, the kernel and the power
    supply may do. */
module MoveWorld {
  import opened Wrappers
  import opened Paths
  import opened Books
  import opened Disk
  import opened Move
  import opened MoveInvariant

  lemma OpenCloseKeeps(s: State, s': State)
    requires Inv(s)
    requires s' == s.(conns := s'.conns)
    requires s.conns == map[] && s.lock == Some(Resolve(s)) ==> s'.conns == map[]
    requires forall pid :: pid in s'.conns ==> s'.conns[pid] == Resolve(s)
    ensures Inv(s')
  {
    ResolveIsOption(s);
    assert Options(s') == Options(s) && Resolve(s') == Resolve(s);
    assert forall todo :: Copied(s', todo) == Copied(s, todo);
  }

  // ----- committing -----

  lemma PapersAdded(fs: Fs, q: Path, papers: map<Path, Bytes>)
    ensures forall rel :: rel in papers ==> Now(AddPapers(fs, q, papers), Doc(q, rel)) == Some(Blob(papers[rel]))
    ensures forall id: FileId :: !(id.Doc? && id.dir == q && id.rel in papers) ==>
      At(AddPapers(fs, q, papers), id) == At(fs, id)
  {
  }

  lemma RowsAdded(fs: Fs, q: Path, rows: Db)
    requires Rooted(fs, q)
    ensures ContentOf(AddRows(fs, q, rows), q) == Some(ContentOf(fs, q).value + rows)
    ensures forall id :: id != DbFile(q, Wal) ==> At(AddRows(fs, q, rows), id) == At(fs, id)
  {
    var main := Now(fs, DbFile(q, Main)).value.db;
    var over := LogOver(Now(fs, DbFile(q, Wal)));
    assert ContentOf(fs, q).value == main + over by {
      assert main + map[] == main;
    }
    assert main + (over + rows) == main + over + rows;
  }

  /** What a commit through `q` does to the files. */
  lemma CommitFiles(fs: Fs, q: Path, rows: Db, papers: map<Path, Bytes>)
    requires Rooted(fs, q)
    ensures var fs' := AddPapers(AddRows(fs, q, rows), q, papers);
      && Rooted(fs', q) && ContentOf(fs', q) == Some(ContentOf(fs, q).value + rows)
      && OnDisk(fs', DbFile(q, Wal)) == OnDisk(fs, DbFile(q, Wal)) + {Now(fs', DbFile(q, Wal))}
      && (forall id: FileId :: id != DbFile(q, Wal) && !(id.Doc? && id.dir == q && id.rel in papers) ==>
            At(fs', id) == At(fs, id))
      && (forall rel :: rel in papers ==> Now(fs', Doc(q, rel)) == Some(Blob(papers[rel])))
  {
    RowsAdded(fs, q, rows);
    PapersAdded(AddRows(fs, q, rows), q, papers);
  }

  lemma CommitKeeps(s: State, pid: nat, rows: Db, papers: map<Path, Bytes>)
    requires Inv(s) && WorldEnabled(s, Commit(pid, rows, papers))
    ensures Inv(Committed(s, s.conns[pid], rows, papers))
  {
    var q := s.conns[pid];
    assert q == Resolve(s);
    CommitFiles(s.fs, q, rows, papers);
    CommitCore(s, q, rows, papers);
    CommitPhase(s, q, rows, papers);
  }

  /** The folder committed through has the new rows and documents as well. */
  lemma CommitSafe(s: State, q: Path, rows: Db, papers: map<Path, Bytes>)
    requires Safe(s) && q == Resolve(s) && papers.Keys !! StoreNames(s.fs, q)
    ensures Safe(Committed(s, q, rows, papers))
  {
    CommitFiles(s.fs, q, rows, papers);
    SaidOverlay(ContentOf(s.fs, q).value, rows, q);
  }

  lemma CommitOthers(fs: Fs, q: Path, rows: Db, papers: map<Path, Bytes>)
    requires Rooted(fs, q)
    ensures MainsWhole(fs) ==> MainsWhole(AddPapers(AddRows(fs, q, rows), q, papers))
    ensures forall p :: p != q ==> SameBooks(fs, AddPapers(AddRows(fs, q, rows), q, papers), p)
  {
    CommitFiles(fs, q, rows, papers);
    forall d
      ensures At(AddPapers(AddRows(fs, q, rows), q, papers), DbFile(d, Main)) == At(fs, DbFile(d, Main))
    {
    }
  }

  lemma CommitCore(s: State, q: Path, rows: Db, papers: map<Path, Bytes>)
    requires Core(s) && q == Resolve(s)
    requires forall k :: k in rows ==> k.Entry?
    requires forall k :: k in rows ==> Changes(ContentOf(s.fs, q).value, k, rows[k], q)
    requires papers.Keys !! StoreNames(s.fs, q)
    ensures Core(Committed(s, q, rows, papers))
  {
    var s' := Committed(s, q, rows, papers);
    CommitFiles(s.fs, q, rows, papers);
    CommitSafe(s, q, rows, papers);
    CommitOthers(s.fs, q, rows, papers);
    assert At(s'.fs, Journal) == At(s.fs, Journal) && At(s'.fs, Pointer) == At(s.fs, Pointer);
    assert Options(s') == Options(s) && Resolve(s') == q;
    forall p | p in Options(s) && p != q
      ensures Reverts(s', p)
    {
      SameReads(s.fs, s'.fs, p);
    }
    CommitLog(s, s', q, rows);
  }

  /** The new state of the log joins those that may be on disk: the rows written are now unsynced. */
  lemma CommitLog(s: State, s': State, q: Path, rows: Db)
    requires Safe(s) && Safe(s') && LogTruthful(s) && q == Resolve(s) == Resolve(s')
    requires forall k :: k in rows ==> k.Entry? && Changes(ContentOf(s.fs, q).value, k, rows[k], q)
    requires At(s'.fs, DbFile(q, Main)) == At(s.fs, DbFile(q, Main))
    requires OnDisk(s'.fs, DbFile(q, Wal)) == OnDisk(s.fs, DbFile(q, Wal)) + {Now(s'.fs, DbFile(q, Wal))}
    requires s'.past.books == s.past.books + Said(rows, q)
    requires s'.past.unsynced == (if Solid(s.fs, DbFile(q, Wal)) then {} else s.past.unsynced) + rows.Keys
    ensures LogTruthful(s')
  {
    var wal := DbFile(q, Wal);
    assert forall f, k :: Reads(s'.fs, q, f, k) == Reads(s.fs, q, f, k);
    NowReads(s);
    NowReads(s');
    forall k, f | k in s'.past.books && k !in s'.past.unsynced && f in OnDisk(s'.fs, wal)
      ensures Reads(s'.fs, q, f, k) == Some(s'.past.books[k])
    {
      assert k !in rows && k in s.past.books;
    }
    forall k | k in s'.past.unsynced && !Solid(s'.fs, wal)
      ensures k in s'.past.books
      ensures exists f :: f in OnDisk(s'.fs, wal) && Reads(s'.fs, q, f, k) != Some(s'.past.books[k])
    {
      if k in rows {
        assert Now(s.fs, wal) in OnDisk(s'.fs, wal);
        assert s'.past.books[k] == MeaningOf(rows[k], q);
      } else {
        var f :| f in OnDisk(s.fs, wal) && Reads(s.fs, q, f, k) != Some(s.past.books[k]);
        assert f in OnDisk(s'.fs, wal);
      }
    }
  }

  /** The log as it is now reads as the books say. */
  lemma NowReads(s: State)
    requires Safe(s)
    ensures forall k: Key :: k.Entry? ==>
      Reads(s.fs, Resolve(s), Now(s.fs, DbFile(Resolve(s), Wal)), k) == RowOf(s.past.books, k)
  {
  }

  lemma CommitPhase(s: State, q: Path, rows: Db, papers: map<Path, Bytes>)
    requires PhaseOk(s) && q == Resolve(s) && s.lock != Some(q) && s.conns != map[] && Rooted(s.fs, q)
    ensures PhaseOk(Committed(s, q, rows, papers))
  {
    CommitFiles(s.fs, q, rows, papers);
    CommitFrame(s, Committed(s, q, rows, papers), q);
  }

  lemma CommitFrame(s: State, s': State, q: Path)
    requires PhaseOk(s) && q == Resolve(s) && s.lock != Some(q) && s.conns != map[]
    requires s' == s.(fs := s'.fs, past := s'.past)
    requires forall id: FileId :: FolderOfFile(id) != Some(q) ==> At(s'.fs, id) == At(s.fs, id)
    ensures PhaseOk(s')
  {
    assert At(s'.fs, Pointer) == At(s.fs, Pointer) && At(s'.fs, Journal) == At(s.fs, Journal);
    assert Options(s') == Options(s) && Resolve(s') == Resolve(s);
    if s.run.phase.Cleaning? || s.run.phase.Locking? {
      CommitPreSwap(s, s');
    } else {
      CommitLate(s, s');
    }
  }

  /** Nobody holds a connection while the source is locked and the pointer still names it. */
  lemma CommitLate(s: State, s': State)
    requires PhaseOk(s) && s.conns != map[] && !s.run.phase.Cleaning? && !s.run.phase.Locking?
    requires s' == s.(fs := s'.fs, past := s'.past)
    requires Options(s') == Options(s) && Resolve(s') == Resolve(s) && At(s'.fs, Journal) == At(s.fs, Journal)
    ensures PhaseOk(s')
  {
  }

  lemma CommitPreSwap(s: State, s': State)
    requires PhaseOk(s) && (s.run.phase.Cleaning? || s.run.phase.Locking?)
    requires s' == s.(fs := s'.fs, past := s'.past) && Options(s') == Options(s) && Resolve(s') == Resolve(s)
    requires forall id: FileId :: FolderOfFile(id) != Some(s.run.from) ==> At(s'.fs, id) == At(s.fs, id)
    ensures PhaseOk(s')
  {
  }

  // ----- the kernel, other programs, the power -----

  /** Writing one file back to disk. */
  lemma FlushCore(s: State, id: FileId)
    requires Core(s) && id in s.fs
    ensures Core(s.(fs := SyncFile(s.fs, id)))
    ensures Resolve(s.(fs := SyncFile(s.fs, id))) == Resolve(s)
    ensures Options(s.(fs := SyncFile(s.fs, id))) == if id.Pointer? then {Resolve(s)} else Options(s)
  {
    var s' := s.(fs := SyncFile(s.fs, id));
    ResolveIsOption(s);
    assert id.Pointer? ==> OnDisk(s'.fs, Pointer) == {Now(s.fs, Pointer)};
    assert !id.Pointer? ==> OnDisk(s'.fs, Pointer) == OnDisk(s.fs, Pointer);
    FlushMains(s, id);
    FlushFolders(s.fs, id);
    FlushLog(s, s', id);
  }

  lemma FlushMains(s: State, id: FileId)
    requires MainsWhole(s.fs)
    ensures MainsWhole(SyncFile(s.fs, id))
  {
  }

  lemma FlushFolders(fs: Fs, id: FileId)
    ensures forall f :: Now(SyncFile(fs, id), f) == Now(fs, f) && OnDisk(SyncFile(fs, id), f) <= OnDisk(fs, f)
    ensures forall q :: Rooted(fs, q) ==> Rooted(SyncFile(fs, id), q)
    ensures forall q :: Settled(fs, q) ==> Settled(SyncFile(fs, id), q)
    ensures forall q :: ContentOf(SyncFile(fs, id), q) == ContentOf(fs, q)
  {
  }

  lemma FlushLog(s: State, s': State, id: FileId)
    requires LogTruthful(s) && s' == s.(fs := SyncFile(s.fs, id)) && Resolve(s') == Resolve(s)
    ensures LogTruthful(s')
  {
    var wal := DbFile(Resolve(s), Wal);
    assert forall f, k :: Reads(s'.fs, Resolve(s), f, k) == Reads(s.fs, Resolve(s), f, k);
    assert id != wal ==> OnDisk(s'.fs, wal) == OnDisk(s.fs, wal);
  }

  /** The files one state shows solid, another shows the same; nothing new may come back. */
  ghost predicate NoWorse(fs: Fs, fs': Fs, id: FileId) {
    Now(fs', id) == Now(fs, id) && OnDisk(fs', id) <= OnDisk(fs, id)
  }

  ghost predicate Mine(s: State, id: FileId) {
    FolderOfFile(id).None? || FolderOfFile(id) == Some(s.run.from) || FolderOfFile(id) == Some(s.run.to)
  }

  lemma NoWorseFile(fs: Fs, fs': Fs, id: FileId)
    requires NoWorse(fs, fs', id)
    ensures Solid(fs, id) ==> Solid(fs', id)
    ensures Blank(fs, id) ==> Blank(fs', id)
    ensures forall c :: Holds(fs, id, c) ==> Holds(fs', id, c)
  {
  }

  /** The move's own progress depends only on the two folders, the journal and the pointer, and
      survives anything that settles them. */
  lemma ProgressParts(s: State, s': State)
    requires s' == s.(fs := s'.fs)
    requires forall id: FileId :: Mine(s, id) ==> NoWorse(s.fs, s'.fs, id)
    requires Options(s') <= Options(s)
    ensures PreSwap(s) ==> PreSwap(s')
    ensures Frozen(s) ==> Frozen(s')
    ensures Working(s) ==> Working(s')
    ensures CopyIsNew(s) ==> CopyIsNew(s')
    ensures Resolve(s') == Resolve(s)
  {
    assert NoWorse(s.fs, s'.fs, Pointer);
    assert NoWorse(s.fs, s'.fs, DbFile(s.run.to, Main));
    assert NoWorse(s.fs, s'.fs, DbFile(s.run.to, Wal));
    NoWorseFile(s.fs, s'.fs, DbFile(s.run.to, Wal));
    NoWorseFile(s.fs, s'.fs, DbFile(s.run.from, Main));
    NoWorseFile(s.fs, s'.fs, DbFile(s.run.from, Wal));
  }

  lemma ProgressDocs(s: State, s': State, todo: set<Path>)
    requires s' == s.(fs := s'.fs) && Copied(s, todo)
    requires forall id: FileId :: Mine(s, id) ==> NoWorse(s.fs, s'.fs, id)
    ensures Copied(s', todo)
  {
    forall rel | rel in s.run.store && rel !in todo
      ensures Holds(s'.fs, Doc(s.run.to, rel), s.run.store[rel])
    {
      assert Holds(s.fs, Doc(s.run.to, rel), s.run.store[rel]);
      NoWorseFile(s.fs, s'.fs, Doc(s.run.to, rel));
    }
  }

  predicate CopiesDone(p: Phase) {
    !p.Idle? && !p.Cleaning? && !p.Locking? && !p.CopyingDb? && !p.CopyingDocs? && !p.CopyingDoc?
  }

  lemma ProgressKeeps(s: State, s': State)
    requires PhaseOk(s) && s' == s.(fs := s'.fs)
    requires forall id: FileId :: Mine(s, id) ==> NoWorse(s.fs, s'.fs, id)
    requires Options(s') <= Options(s) && Resolve(s) in Options(s')
    ensures PhaseOk(s')
  {
    if CopiesDone(s.run.phase) {
      LateProgressKeeps(s, s');
    } else {
      EarlyProgressKeeps(s, s');
    }
  }

  lemma EarlyProgressKeeps(s: State, s': State)
    requires PhaseOk(s) && !CopiesDone(s.run.phase) && s' == s.(fs := s'.fs)
    requires forall id: FileId :: Mine(s, id) ==> NoWorse(s.fs, s'.fs, id)
    requires Options(s') <= Options(s) && Resolve(s) in Options(s')
    ensures PhaseOk(s')
  {
    ProgressParts(s, s');
    if s.run.phase.Cleaning? || s.run.phase.Locking? {
      StartProgressKeeps(s, s');
    } else if !s.run.phase.Idle? {
      CopyProgressKeeps(s, s');
    }
  }

  lemma CopyProgressKeeps(s: State, s': State)
    requires PhaseOk(s) && s' == s.(fs := s'.fs) && Working(s')
    requires s.run.phase.CopyingDb? || s.run.phase.CopyingDocs? || s.run.phase.CopyingDoc?
    requires forall id: FileId :: Mine(s, id) ==> NoWorse(s.fs, s'.fs, id)
    ensures PhaseOk(s')
  {
    NoWorseFile(s.fs, s'.fs, Partial(s.run.to, Main));
    assert NoWorse(s.fs, s'.fs, Partial(s.run.to, Main)) && NoWorse(s.fs, s'.fs, Partial(s.run.to, Wal));
    if !s.run.phase.CopyingDb? {
      ProgressDocs(s, s', s.run.phase.todo);
    }
    if s.run.phase.CopyingDoc? {
      assert NoWorse(s.fs, s'.fs, Doc(s.run.to, s.run.phase.rel));
    }
  }

  lemma StartProgressKeeps(s: State, s': State)
    requires PhaseOk(s) && (s.run.phase.Cleaning? || s.run.phase.Locking?) && s' == s.(fs := s'.fs) && PreSwap(s')
    requires forall id: FileId :: Mine(s, id) ==> NoWorse(s.fs, s'.fs, id)
    ensures PhaseOk(s')
  {
    assert NoWorse(s.fs, s'.fs, Partial(s.run.to, Wal));
    assert NoWorse(s.fs, s'.fs, DbFile(s.run.to, Main)) && NoWorse(s.fs, s'.fs, Journal);
  }

  lemma LateProgressKeeps(s: State, s': State)
    requires PhaseOk(s) && CopiesDone(s.run.phase) && s' == s.(fs := s'.fs)
    requires forall id: FileId :: Mine(s, id) ==> NoWorse(s.fs, s'.fs, id)
    requires Options(s') <= Options(s) && Resolve(s) in Options(s')
    ensures PhaseOk(s')
  {
    ProgressParts(s, s');
    if Copied(s, {}) {
      ProgressDocs(s, s', {});
    }
    if s.run.phase.WritingTmp? || s.run.phase.Swapping? {
      ArrivedKeeps(s, s');
    } else if s.run.phase.Rewriting? || s.run.phase.Auditing? || s.run.phase.Closing? {
      LocalisedKeeps(s, s');
    } else {
      PreparedKeeps(s, s');
    }
  }

  lemma LocalisedKeeps(s: State, s': State)
    requires PhaseOk(s) && s' == s.(fs := s'.fs)
    requires s.run.phase.Rewriting? || s.run.phase.Auditing? || s.run.phase.Closing?
    requires forall id: FileId :: Mine(s, id) ==> NoWorse(s.fs, s'.fs, id)
    requires Working(s) ==> Working(s')
    requires CopyIsNew(s) ==> CopyIsNew(s')
    requires Copied(s, {}) ==> Copied(s', {})
    ensures PhaseOk(s')
  {
    assert NoWorse(s.fs, s'.fs, Partial(s.run.to, Wal));
    NoWorseFile(s.fs, s'.fs, Partial(s.run.to, Main));
    assert NoWorse(s.fs, s'.fs, Partial(s.run.to, Main));
  }

  lemma PreparedKeeps(s: State, s': State)
    requires PhaseOk(s) && CopiesDone(s.run.phase) && s' == s.(fs := s'.fs)
    requires !s.run.phase.Rewriting? && !s.run.phase.Auditing? && !s.run.phase.Closing?
    requires !s.run.phase.WritingTmp? && !s.run.phase.Swapping?
    requires forall id: FileId :: Mine(s, id) ==> NoWorse(s.fs, s'.fs, id)
    requires Frozen(s) ==> Frozen(s')
    requires Working(s) ==> Working(s')
    requires CopyIsNew(s) ==> CopyIsNew(s')
    requires Copied(s, {}) ==> Copied(s', {})
    requires Options(s') <= Options(s) && Resolve(s) in Options(s') && Resolve(s') == Resolve(s)
    ensures PhaseOk(s')
  {
    assert NoWorse(s.fs, s'.fs, Partial(s.run.to, Wal));
    NoWorseFile(s.fs, s'.fs, Partial(s.run.to, Main));
    NoWorseFile(s.fs, s'.fs, Journal);
    assert NoWorse(s.fs, s'.fs, DbFile(s.run.to, Main));
  }

  lemma ArrivedKeeps(s: State, s': State)
    requires Arrived(s) && s' == s.(fs := s'.fs) && Frozen(s') && Copied(s', {})
    requires forall id: FileId :: Mine(s, id) ==> NoWorse(s.fs, s'.fs, id)
    ensures Arrived(s')
    ensures NoWorse(s.fs, s'.fs, PointerTmp) && forall c :: Holds(s.fs, PointerTmp, c) ==> Holds(s'.fs, PointerTmp, c)
  {
    NoWorseFile(s.fs, s'.fs, DbFile(s.run.to, Main));
    NoWorseFile(s.fs, s'.fs, DbFile(s.run.to, Wal));
    NoWorseFile(s.fs, s'.fs, Journal);
    assert NoWorse(s.fs, s'.fs, Partial(s.run.to, Wal));
    assert NoWorse(s.fs, s'.fs, Pointer) && Now(s'.fs, Pointer) in OnDisk(s'.fs, Pointer);
    assert Options(s') <= Options(s) && Resolve(s') in Options(s');
    NoWorseFile(s.fs, s'.fs, PointerTmp);
  }

  lemma FlushPhase(s: State, id: FileId)
    requires PhaseOk(s) && id in s.fs
    requires Options(s.(fs := SyncFile(s.fs, id))) <= Options(s)
    requires Resolve(s) in Options(s.(fs := SyncFile(s.fs, id)))
    ensures PhaseOk(s.(fs := SyncFile(s.fs, id)))
  {
    ProgressKeeps(s, s.(fs := SyncFile(s.fs, id)));
  }

  lemma TamperKeeps(s: State, id: FileId, file: File)
    requires Inv(s) && WorldEnabled(s, Tamper(id, file))
    ensures Inv(WorldRaw(s, Tamper(id, file)))
  {
    var s' := WorldRaw(s, Tamper(id, file));
    ScratchKeepsCore(s, s', id);
    ResolveIsOption(s);
    TamperPhase(s, id, file);
  }

  lemma TamperPhase(s: State, id: FileId, file: File)
    requires PhaseOk(s) && Outside(s, id)
    requires Options(WorldRaw(s, Tamper(id, file))) == Options(s)
    requires Resolve(WorldRaw(s, Tamper(id, file))) == Resolve(s)
    requires Resolve(s) in Options(s)
    ensures PhaseOk(WorldRaw(s, Tamper(id, file)))
  {
    if !s.run.phase.Idle? {
      ProgressKeeps(s, WorldRaw(s, Tamper(id, file)));
    }
  }

  /** Durable files come through a power cut unchanged. */
  lemma CutFolders(s: State, cut: Fs)
    requires CutOf(s.fs, cut)
    ensures forall id :: Solid(s.fs, id) ==> Solid(cut, id) && Now(cut, id) == Now(s.fs, id)
    ensures forall id :: Now(cut, id) in OnDisk(s.fs, id) && OnDisk(cut, id) == {Now(cut, id)}
    ensures forall q :: Rooted(s.fs, q) ==> Settled(cut, q)
    ensures forall q :: Settled(s.fs, q) ==> ContentOf(cut, q) == ContentOf(s.fs, q)
    ensures MainsWhole(s.fs) ==> MainsWhole(cut)
  {
  }

  lemma CutOptions(s: State, cut: Fs)
    requires PointerWhole(s) && CutOf(s.fs, cut)
    ensures var s' := s.(fs := cut, conns := map[]);
      PointerWhole(s') && Resolve(s') in Options(s) && Options(s') == {Resolve(s')}
  {
  }

  /** Whatever a power cut leaves, the resolved folder has a readable database, all of it durable. */
  lemma PowerCutKeeps(s: State, cut: Fs)
    requires Inv(s) && CutOf(s.fs, cut)
    ensures Inv(WorldRaw(s, PowerCut(cut)))
    ensures Options(WorldRaw(s, PowerCut(cut))) == {Resolve(WorldRaw(s, PowerCut(cut)))}
    ensures Settled(cut, Resolve(WorldRaw(s, PowerCut(cut))))
  {
    var s' := WorldRaw(s, PowerCut(cut));
    CutFolders(s, cut);
    CutOptions(s, cut);
    assert Now(cut, Journal) in OnDisk(s.fs, Journal);
    CutJournal(s, s');
    SolidLogIsTruthful(s');
  }

  lemma CutJournal(s: State, s': State)
    requires JournalOk(s) && PointerWhole(s) && s'.past.made == s.past.made
    requires Now(s'.fs, Journal) in OnDisk(s.fs, Journal) && OnDisk(s'.fs, Journal) == {Now(s'.fs, Journal)}
    requires Options(s') == {Resolve(s')}
    ensures JournalOk(s')
  {
  }

  // ----- every step -----

  predicate Copying(p: Phase) {
    || p.Cleaning? || p.Locking? || p.CopyingDb? || p.CopyingDocs? || p.CopyingDoc? || p.Rewriting? || p.Closing?
  }

  predicate Clearing(p: Phase) {
    p.ReadingBack? || p.Deleting? || p.DeletingDocs? || p.DeletingJournal?
  }

  lemma StartStepKeeps(s: State)
    requires Inv(s) && (s.run.phase.Cleaning? || s.run.phase.Locking?) && MoverEnabled(s, Next) && Assumed(s, Next)
    ensures Core(MoverNext(s)) && PhaseOk(MoverNext(s))
  {
    ResolveIsOption(s);
    match s.run.phase {
      case Cleaning(part) => CleanCore(s, part); CleanPhase(s, part);
      case Locking =>
        var db := ContentOf(s.fs, s.run.from).value;
        LockCore(s, db);
        LockPhase(s, db);
    }
  }

  lemma CopyDbKeeps(s: State, stage: nat)
    requires Inv(s) && s.run.phase == CopyingDb(stage)
    ensures Core(MoverNext(s)) && PhaseOk(MoverNext(s))
  {
    assert MoverNext(s) == CopyDbNext(s, stage);
    CopyDbCore(s, stage);
    CopyDbPhase(s, stage);
  }

  lemma CopyDocKeeps(s: State, todo: set<Path>, rel: Path, stage: nat)
    requires Inv(s) && s.run.phase == CopyingDoc(todo, rel, stage)
    ensures Core(MoverNext(s)) && PhaseOk(MoverNext(s))
  {
    assert MoverNext(s) == CopyDocNext(s, todo, rel, stage);
    CopyDocCore(s, todo, rel, stage);
    CopyDocPhase(s, todo, rel, stage);
  }

  lemma LocaliseStepKeeps(s: State)
    requires Inv(s) && (s.run.phase.CopyingDocs? || s.run.phase.Rewriting? || s.run.phase.Closing?)
    requires MoverEnabled(s, Next)
    ensures Core(MoverNext(s)) && PhaseOk(MoverNext(s))
  {
    match s.run.phase {
      case CopyingDocs(_) => KeepCore(s, MoverNext(s)); OpenCopyPhase(s, PartialView(s.fs, s.run.to).value);
      case Rewriting(_) => KeepCore(s, MoverNext(s)); RowsDonePhase(s);
      case Closing => CloseCopyCore(s, Copy(s)); CloseCopyPhase(s);
    }
  }

  lemma JournalStepKeeps(s: State, stage: nat)
    requires Inv(s) && s.run.phase == Journaling(stage)
    ensures Core(MoverNext(s)) && PhaseOk(MoverNext(s))
  {
    if stage < 3 {
      JournalCore(s, stage);
      JournalPhase(s, stage);
    } else {
      ResolveIsOption(s);
      SyncPointer(s, JournalNext(s, 3));
      JournalSyncPhase(s);
    }
  }

  lemma FinaliseKeeps(s: State)
    requires Inv(s) && s.run.phase.Finalising?
    ensures Core(MoverNext(s)) && PhaseOk(MoverNext(s))
  {
    assert MoverNext(s) == Finalise(s);
    FinaliseCore(s);
    FinalisePhase(s);
  }

  lemma SyncTargetKeeps(s: State)
    requires Inv(s) && s.run.phase.SyncingTarget?
    ensures Core(MoverNext(s)) && PhaseOk(MoverNext(s))
  {
    assert MoverNext(s) == SyncTarget(s);
    SyncTargetCore(s);
    assert Whole(At(s.fs, DbFile(s.run.to, Main)));
    SyncTargetPhase(s);
  }

  lemma TmpKeeps(s: State, stage: nat)
    requires Inv(s) && s.run.phase == WritingTmp(stage)
    ensures Core(MoverNext(s)) && PhaseOk(MoverNext(s))
  {
    assert MoverNext(s) == TmpNext(s, stage);
    TmpCore(s, stage);
    TmpPhase(s, stage);
  }

  lemma SwapKeeps(s: State)
    requires Inv(s) && s.run.phase.Swapping?
    ensures Core(MoverNext(s)) && PhaseOk(MoverNext(s))
  {
    assert MoverNext(s) == Swap(s);
    SwapCore(s);
    SwapPhase(s);
  }

  lemma SyncConfigKeeps(s: State)
    requires Inv(s) && s.run.phase.SyncingConfig?
    ensures Core(MoverNext(s)) && PhaseOk(MoverNext(s)) && Options(MoverNext(s)) == {Resolve(MoverNext(s))}
  {
    assert MoverNext(s) == SyncConfig(s);
    SyncPointer(s, SyncConfig(s));
  }

  lemma PassKeeps(s: State, s': State)
    requires Inv(s) && s' == s.(run := s'.run, lock := s'.lock) && PhaseOk(s')
    ensures Core(s')
  {
    KeepCore(s, s');
  }

  /** Failing to remove something the old folder held. */
  lemma SkipKeeps(s: State)
    requires Inv(s) && MoverEnabled(s, Skip)
    ensures Core(SkipNext(s)) && PhaseOk(SkipNext(s))
  {
    SkipPhase(s);
    PassKeeps(s, SkipNext(s));
  }

  lemma SkipPhase(s: State)
    requires Finished(s)
    requires s.run.phase.Deleting? || s.run.phase.DeletingDocs? || s.run.phase.DeletingJournal?
    ensures PhaseOk(SkipNext(s))
  {
    var s' := SkipNext(s);
    assert s'.lock == s.lock && s'.fs == s.fs && s'.fallback == s.fallback;
    assert s'.run.from == s.run.from && s'.run.to == s.run.to;
    assert Finished(s');
    assert s'.run.phase.Deleting? || s'.run.phase.DeletingDocs? || s'.run.phase.DeletingJournal? || s'.run.phase.Idle?;
  }

  lemma DeleteDocKeeps(s: State, rel: Path)
    requires Inv(s) && s.run.phase.DeletingDocs? && rel in s.run.phase.todo
    ensures Core(MoverRaw(s, TakeDoc(rel))) && PhaseOk(MoverRaw(s, TakeDoc(rel)))
  {
    DeleteCore(s, MoverRaw(s, TakeDoc(rel)), Doc(s.run.from, rel));
  }

  lemma DeleteFileKeeps(s: State, part: DbPart)
    requires Inv(s) && s.run.phase == Deleting(part)
    ensures Core(MoverNext(s)) && PhaseOk(MoverNext(s))
  {
    DeleteCore(s, MoverNext(s), DbFile(s.run.from, part));
  }

  lemma DeleteJournalKeeps(s: State)
    requires Inv(s) && s.run.phase.DeletingJournal?
    ensures Core(MoverNext(s)) && PhaseOk(MoverNext(s))
  {
    DeleteCore(s, MoverNext(s), Journal);
  }

  lemma EarlyNextKeeps(s: State)
    requires Inv(s) && Copying(s.run.phase) && MoverEnabled(s, Next) && Assumed(s, Next)
    ensures Core(MoverNext(s)) && PhaseOk(MoverNext(s))
  {
    var p := s.run.phase;
    if p.Cleaning? || p.Locking? {
      StartStepKeeps(s);
    } else if p.CopyingDb? {
      CopyDbKeeps(s, p.stage);
    } else if p.CopyingDoc? {
      CopyDocKeeps(s, p.todo, p.rel, p.stage);
    } else {
      LocaliseStepKeeps(s);
    }
  }

  lemma CommitNextKeeps(s: State)
    requires Inv(s) && !Copying(s.run.phase) && !Clearing(s.run.phase) && MoverEnabled(s, Next)
    ensures Core(MoverNext(s)) && PhaseOk(MoverNext(s))
  {
    var p := s.run.phase;
    if p.Journaling? {
      JournalStepKeeps(s, p.stage);
    } else if p.Finalising? {
      FinaliseKeeps(s);
    } else if p.SyncingTarget? {
      SyncTargetKeeps(s);
    } else if p.WritingTmp? {
      TmpKeeps(s, p.stage);
    } else if p.Swapping? {
      SwapKeeps(s);
    } else {
      SyncConfigKeeps(s);
    }
  }

  /** Going on to the next deletion changes no file. */
  lemma GoOnKeeps(s: State)
    requires Inv(s) && (s.run.phase.ReadingBack? || s.run.phase.DeletingDocs?)
    ensures Core(MoverNext(s)) && PhaseOk(MoverNext(s))
  {
    var s' := MoverNext(s);
    assert s' == s.(run := s.run.(phase := s'.run.phase), lock := s'.lock);
    assert Finished(s');
    PassKeeps(s, s');
  }

  lemma LateNextKeeps(s: State)
    requires Inv(s) && Clearing(s.run.phase) && MoverEnabled(s, Next)
    ensures Core(MoverNext(s)) && PhaseOk(MoverNext(s))
  {
    if s.run.phase.Deleting? {
      DeleteFileKeeps(s, s.run.phase.part);
    } else if s.run.phase.DeletingJournal? {
      DeleteJournalKeeps(s);
    } else {
      GoOnKeeps(s);
    }
  }

  lemma RowStepKeeps(s: State, step: Step)
    requires Inv(s) && (step.TakeRow? || step.Record?) && MoverEnabled(s, step)
    ensures Core(MoverRaw(s, step)) && PhaseOk(MoverRaw(s, step))
  {
    match step {
      case TakeRow(k) =>
        RewriteCore(s, s.run.phase.left, k);
        RewritePhase(s, s.run.phase.left, k);
      case Record(auditId) =>
        RecordCore(s, auditId);
        RecordPhase(s, auditId);
    }
  }

  lemma TakeDocKeeps(s: State, rel: Path)
    requires Inv(s) && s.run.phase.CopyingDocs? && MoverEnabled(s, TakeDoc(rel))
    ensures Core(MoverRaw(s, TakeDoc(rel))) && PhaseOk(MoverRaw(s, TakeDoc(rel)))
  {
    KeepCore(s, MoverRaw(s, TakeDoc(rel)));
    TakeDocPhase(s, s.run.phase.todo, rel);
  }

  lemma ChoiceKeeps(s: State, step: Step)
    requires Inv(s) && (step.TakeDoc? || step.Skip? || step.TakeRow? || step.Record?) && MoverEnabled(s, step)
    ensures Core(MoverRaw(s, step)) && PhaseOk(MoverRaw(s, step))
  {
    if step.Skip? {
      SkipKeeps(s);
    } else if !step.TakeDoc? {
      RowStepKeeps(s, step);
    } else if s.run.phase.CopyingDocs? {
      TakeDocKeeps(s, step.rel);
    } else {
      DeleteDocKeeps(s, step.rel);
    }
  }

  lemma NextKeeps(s: State)
    requires Inv(s) && MoverEnabled(s, Next) && Assumed(s, Next)
    ensures Core(MoverNext(s)) && PhaseOk(MoverNext(s))
  {
    if Copying(s.run.phase) {
      EarlyNextKeeps(s);
    } else if Clearing(s.run.phase) {
      LateNextKeeps(s);
    } else {
      CommitNextKeeps(s);
    }
  }

  lemma MoverKeeps(s: State, step: Step)
    requires Inv(s) && IsMover(step) && MoverEnabled(s, step) && Assumed(s, step)
    ensures Inv(MoverRaw(s, step))
  {
    var raw := MoverRaw(s, step);
    if step.Begin? {
      BeginKeeps(s, step.to);
    } else if step.Next? {
      assert raw == MoverNext(s);
      NextKeeps(s);
    } else if step.Abort? || step.Mismatch? {
      StopKeeps(s, step);
    } else {
      ChoiceKeeps(s, step);
    }
  }

  lemma WorldKeeps(s: State, step: Step)
    requires Inv(s) && !IsMover(step) && WorldEnabled(s, step)
    ensures Inv(WorldRaw(s, step))
  {
    if step.Open? || step.Close? {
      OpenCloseKeeps(s, WorldRaw(s, step));
    } else if step.Commit? {
      CommitKeeps(s, step.pid, step.rows, step.papers);
    } else if step.Flush? {
      FlushKeeps(s, step.id);
    } else if step.Tamper? {
      TamperKeeps(s, step.id, step.file);
    } else {
      PowerCutKeeps(s, step.cut);
    }
  }

  lemma FlushKeeps(s: State, id: FileId)
    requires Inv(s) && id in s.fs
    ensures Inv(s.(fs := SyncFile(s.fs, id)))
  {
    FlushCore(s, id);
    ResolveIsOption(s);
    FlushPhase(s, id);
  }

  /** A step the theorems cover: the code, or the world, allows it, and the stated assumptions hold. */
  ghost predicate Covered(s: State, step: Step) {
    Enabled(s, step) && Assumed(s, step)
  }

  lemma StepKeeps(s: State, step: Step)
    requires Inv(s) && Covered(s, step)
    ensures Inv(Apply(s, step))
  {
    if IsMover(step) {
      MoverKeeps(s, step);
    } else {
      WorldKeeps(s, step);
    }
  }
}
