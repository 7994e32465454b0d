/** The move machine's invariant is kept by every step, whoever takes it. */
module MoveInvariant {
  import opened Wrappers
  import opened Paths
  import opened Books
  import opened Disk
  import opened Move

  /** The parts of a folder that readers of the books depend on are untouched. */
  ghost predicate SameBooks(fs: Fs, fs': Fs, q: Path) {
    && At(fs', DbFile(q, Main)) == At(fs, DbFile(q, Main))
    && At(fs', DbFile(q, Wal)) == At(fs, DbFile(q, Wal))
    && forall rel :: At(fs', Doc(q, rel)) == At(fs, Doc(q, rel))
  }

  lemma ResolveIsOption(s: State)
    requires PointerWhole(s)
    ensures Resolve(s) in Options(s)
  {
  }

  /** Untouched folders read the same, log by log. */
  lemma SameReads(fs: Fs, fs': Fs, q: Path)
    requires SameBooks(fs, fs', q)
    ensures Rooted(fs, q) ==> Rooted(fs', q)
    ensures Settled(fs, q) ==> Settled(fs', q)
    ensures ContentOf(fs', q) == ContentOf(fs, q)
    ensures forall wal, k :: Reads(fs', q, wal, k) == Reads(fs, q, wal, k)
  {
  }

  /** A step that leaves the pointer and every resolvable folder alone keeps the core. */
  lemma KeepCore(s: State, s': State)
    requires Core(s)
    requires s'.fallback == s.fallback && s'.conns == s.conns
    requires s'.past == s.past.(made := s'.past.made)
    requires At(s'.fs, Pointer) == At(s.fs, Pointer)
    requires forall q :: q in Options(s) ==> SameBooks(s.fs, s'.fs, q)
    requires JournalOk(s') && MainsWhole(s'.fs)
    ensures Core(s')
  {
    ResolveIsOption(s);
    assert Options(s') == Options(s) && Resolve(s') == Resolve(s);
    SameReads(s.fs, s'.fs, Resolve(s));
    forall q | q in Options(s) && q != Resolve(s)
      ensures Reverts(s', q)
    {
      SameReads(s.fs, s'.fs, q);
    }
  }

  /** A file no reader of the books depends on. */
  predicate Scratch(s: State, id: FileId) {
    match id
    case Pointer => false
    case DbFile(d, _) => d !in Options(s)
    case Doc(d, _) => d !in Options(s)
    case _ => true
  }

  /** Changing one scratch file keeps the core; the journal must stay truthful and no main
      database file may be torn. */
  lemma ScratchKeepsCore(s: State, s': State, id: FileId)
    requires Core(s) && Scratch(s, id)
    requires id in s'.fs && s'.fs == s.fs[id := s'.fs[id]]
    requires s'.fallback == s.fallback && s'.conns == s.conns
    requires s'.past == s.past.(made := s'.past.made) && s.past.made <= s'.past.made
    requires id.Journal? ==> JournalOk(s')
    requires id.DbFile? && id.part.Main? ==> Whole(s'.fs[id])
    ensures Core(s')
    ensures Resolve(s') == Resolve(s) && Options(s') == Options(s)
  {
    forall q | q in Options(s)
      ensures SameBooks(s.fs, s'.fs, q)
    {
    }
    assert MainsWhole(s'.fs) by {
      forall d
        ensures Whole(At(s'.fs, DbFile(d, Main)))
      {
        assert Whole(At(s.fs, DbFile(d, Main)));
      }
    }
    assert OnDisk(s'.fs, Pointer) == OnDisk(s.fs, Pointer);
    assert Options(s') == Options(s);
    KeepCore(s, s');
  }

  // ----- steps of the move -----

  /** Nothing about the run but its phase and counters differs. */
  predicate SameRun(s: State, s': State) {
    && s'.fallback == s.fallback && s'.lock == s.lock && s'.conns == s.conns
    && s'.past.papers == s.past.papers && s.past.made <= s'.past.made
    && s'.run.from == s.run.from && s'.run.to == s.run.to && s'.run.dirty == s.run.dirty
    && s'.run.src == s.run.src && s'.run.store == s.run.store
  }

  /** Writing the partial copy, the journal, the pointer's temporary file or a document at the
      target leaves the rest of the move's progress standing. */
  lemma ScratchKeepsProgress(s: State, s': State, id: FileId)
    requires SameRun(s, s') && id in s'.fs && s'.fs == s.fs[id := s'.fs[id]]
    requires id.Partial? || id.PointerTmp? || id.Journal? || (id.Doc? && id.dir == s.run.to && s.run.to != s.run.from)
    ensures PreSwap(s) ==> PreSwap(s')
    ensures Frozen(s) ==> Frozen(s')
    ensures Working(s) ==> Working(s')
    ensures Arrived(s) && s'.run.auditId == s.run.auditId && s'.run.rewritten == s.run.rewritten && id.PointerTmp? ==>
          Arrived(s')
    ensures !id.Doc? ==> forall todo :: Copied(s, todo) ==> Copied(s', todo)
    ensures CopyIsNew(s) && s'.run.auditId == s.run.auditId ==> CopyIsNew(s')
  {
    assert OnDisk(s'.fs, Pointer) == OnDisk(s.fs, Pointer);
    assert Options(s') == Options(s);
    if !id.Doc? {
      forall todo | Copied(s, todo)
        ensures Copied(s', todo)
      {
      }
    }
  }

  lemma BeginKeeps(s: State, to: Path)
    requires Inv(s) && MoverEnabled(s, Begin(to)) && Assumed(s, Begin(to))
    ensures Core(s.(run := BeginRun(s, to))) && PhaseOk(s.(run := BeginRun(s, to)))
  {
    var s' := s.(run := BeginRun(s, to));
    KeepCore(s, s');
    ResolveIsOption(s);
    assert to in Options(s) ==> Settled(s.fs, to);
  }

  lemma CleanCore(s: State, part: DbPart)
    requires Core(s)
    requires AtCleaning(s, part)
    ensures Core(CleanNext(s, part))
  {
    assert Whole(At(s.fs, DbFile(s.run.to, Main)));
    ScratchKeepsCore(s, CleanNext(s, part), DbFile(s.run.to, part));
  }

  lemma CleanPhase(s: State, part: DbPart)
    requires AtCleaning(s, part)
    ensures PhaseOk(CleanNext(s, part))
  {
  }

  /** Folding the log changes no content, and leaves nothing of it to lose. */
  lemma LockCore(s: State, db: Db)
    requires Core(s) && s.run.from == Resolve(s) && ContentOf(s.fs, s.run.from) == Some(db)
    ensures Core(LockAndFold(s, db))
  {
    var s', from := LockAndFold(s, db), s.run.from;
    assert Options(s') == Options(s) && Resolve(s') == from;
    LockContent(s, db);
    forall q | q in Options(s) && q != from
      ensures Reverts(s', q)
    {
      SameReads(s.fs, s'.fs, q);
    }
    LockMains(s, db);
    SolidLogIsTruthful(s');
  }

  lemma LockContent(s: State, db: Db)
    requires ContentOf(s.fs, s.run.from) == Some(db)
    ensures Settled(LockAndFold(s, db).fs, s.run.from)
    ensures ContentOf(LockAndFold(s, db).fs, s.run.from) == ContentOf(s.fs, s.run.from)
    ensures forall q, rel :: At(LockAndFold(s, db).fs, Doc(q, rel)) == At(s.fs, Doc(q, rel))
    ensures forall q :: q != s.run.from ==> SameBooks(s.fs, LockAndFold(s, db).fs, q)
  {
    assert db + map[] == db;
  }

  lemma LockMains(s: State, db: Db)
    requires MainsWhole(s.fs)
    ensures MainsWhole(LockAndFold(s, db).fs)
  {
  }

  /** A durable log has one state, and that one is what the books say. */
  lemma SolidLogIsTruthful(s: State)
    requires Settled(s.fs, Resolve(s)) && BooksAt(s) == s.past.books
    ensures LogTruthful(s)
  {
  }

  lemma AllConnectedTo(conns: map<nat, Path>, dir: Path)
    requires forall pid :: pid in conns ==> conns[pid] == dir
    ensures conns == map[] || dir in conns.Values
  {
  }

  lemma LockPhase(s: State, db: Db)
    requires Core(s) && AtLocking(s) && s.run.from !in s.conns.Values
    requires ContentOf(s.fs, s.run.from) == Some(db) && NoCapture(db, s.run.from, s.run.to)
    ensures PhaseOk(LockAndFold(s, db))
  {
    var s', from := LockAndFold(s, db), s.run.from;
    assert Options(s') == Options(s) && Resolve(s') == Resolve(s);
    AllConnectedTo(s.conns, from);
    ResolveIsOption(s);
    forall rel | rel in s.past.papers
      ensures rel in s'.run.store && s'.run.store[rel] == Blob(s.past.papers[rel])
    {
      assert Now(s.fs, Doc(from, rel)) == Some(Blob(s.past.papers[rel]));
    }
  }

  lemma CopyDbCore(s: State, stage: nat)
    requires Core(s)
    requires AtCopyingDb(s, stage)
    ensures Core(CopyDbNext(s, stage))
  {
    ScratchKeepsCore(s, CopyDbNext(s, stage), Partial(s.run.to, Main));
  }

  lemma CopyDbPhase(s: State, stage: nat)
    requires AtCopyingDb(s, stage)
    ensures stage < 2 ==> AtCopyingDb(CopyDbNext(s, stage), stage + 1)
    ensures stage == 2 ==> AtCopyingDocs(CopyDbNext(s, stage), s.run.store.Keys)
  {
  }

  lemma CopyDocCore(s: State, todo: set<Path>, rel: Path, stage: nat)
    requires Core(s)
    requires AtCopyingDoc(s, todo, rel, stage)
    ensures Core(CopyDocNext(s, todo, rel, stage))
  {
    ScratchKeepsCore(s, CopyDocNext(s, todo, rel, stage), Doc(s.run.to, rel));
  }

  lemma CopyDocPhase(s: State, todo: set<Path>, rel: Path, stage: nat)
    requires AtCopyingDoc(s, todo, rel, stage)
    ensures stage < 2 ==> AtCopyingDoc(CopyDocNext(s, todo, rel, stage), todo, rel, stage + 1)
    ensures stage == 2 ==> AtCopyingDocs(CopyDocNext(s, todo, rel, stage), todo - {rel})
  {
    var s' := CopyDocNext(s, todo, rel, stage);
    ScratchKeepsProgress(s, s', Doc(s.run.to, rel));
    CopyDocFiles(s, s', todo, rel);
    if stage == 2 {
      assert Holds(s'.fs, Doc(s.run.to, rel), s.run.store[rel]);
      assert Copied(s', todo - {rel});
    }
  }

  /** Writing one document leaves the finished ones alone. */
  lemma CopyDocFiles(s: State, s': State, todo: set<Path>, rel: Path)
    requires Copied(s, todo) && rel in todo && s'.run.store == s.run.store && s'.run.to == s.run.to
    requires Doc(s.run.to, rel) in s'.fs && s'.fs == s.fs[Doc(s.run.to, rel) := s'.fs[Doc(s.run.to, rel)]]
    ensures Copied(s', todo)
    ensures At(s'.fs, Partial(s.run.to, Main)) == At(s.fs, Partial(s.run.to, Main))
    ensures At(s'.fs, Partial(s.run.to, Wal)) == At(s.fs, Partial(s.run.to, Wal))
  {
  }

  lemma TakeDocPhase(s: State, todo: set<Path>, rel: Path)
    requires AtCopyingDocs(s, todo) && rel in todo
    ensures PhaseOk(Goto(s, s.fs, CopyingDoc(todo, rel, 0)))
  {
  }

  lemma OpenCopyPhase(s: State, view: Db)
    requires AtCopyingDocs(s, {}) && PartialView(s.fs, s.run.to) == Some(view)
    ensures PhaseOk(OpenCopy(s, view))
  {
    OpenedView(s, view);
    OpenedLogged(s, OpenCopy(s, s.run.src));
    NowRewriting(OpenCopy(s, view), StoreKeys(s.run.src, s.run.from));
  }

  lemma OpenedView(s: State, view: Db)
    requires Holds(s.fs, Partial(s.run.to, Main), Database(s.run.src)) && BlankLog(Now(s.fs, Partial(s.run.to, Wal)))
    requires PartialView(s.fs, s.run.to) == Some(view)
    ensures view == s.run.src
  {
    assert s.run.src + map[] == s.run.src;
  }

  lemma OpenedLogged(s: State, s': State)
    requires AtCopyingDocs(s, {}) && s' == Goto(s, s.fs, Rewriting(StoreKeys(s.run.src, s.run.from)))
    ensures AtRewriting(s', StoreKeys(s.run.src, s.run.from))
  {
    OverlayRewrites(s.run.src, s.run.from, s.run.to);
    assert Copied(s', {});
  }

  lemma NowRewriting(s: State, left: set<Key>)
    requires s.run.phase == Rewriting(left) && AtRewriting(s, left)
    ensures PhaseOk(s)
  {
  }

  lemma RowsDonePhase(s: State)
    requires AtRewriting(s, {})
    ensures PhaseOk(Goto(s, s.fs, Auditing))
  {
  }

  lemma RewriteCore(s: State, left: set<Key>, k: Key)
    requires Core(s) && AtRewriting(s, left) && k in left
    ensures Core(RewriteRow(s, left, k))
  {
    var s' := RewriteRow(s, left, k);
    if s'.fs == s.fs {
      KeepCore(s, s');
    } else {
      ScratchKeepsCore(s, s', Partial(s.run.to, Wal));
    }
  }

  lemma RewritePhase(s: State, left: set<Key>, k: Key)
    requires AtRewriting(s, left) && k in left
    ensures PhaseOk(RewriteRow(s, left, k)) && RewriteRow(s, left, k).run.phase == Rewriting(left - {k})
  {
    var s' := RewriteRow(s, left, k);
    LoggedView(s, left, k);
    RewriteOne(s.run.src, s.run.from, s.run.to, left, k);
    ScratchKeepsProgress(s, s', Partial(s.run.to, Wal));
    RewrittenOne(s, s', left, k);
    NowRewriting(s', left - {k});
  }

  lemma RewrittenOne(s: State, s': State, left: set<Key>, k: Key)
    requires Logged(s, left) && k in left && s' == RewriteRow(s, left, k)
    requires PartialView(s.fs, s.run.to).Some? && k in PartialView(s.fs, s.run.to).value
    requires PartialView(s.fs, s.run.to).value[k] == s.run.src[k]
    requires Rewrites(s.run.src, s.run.from, s.run.to, left)[k := Repoint(s.run.src[k], s.run.from, s.run.to)]
          == Rewrites(s.run.src, s.run.from, s.run.to, left - {k})
    ensures Logged(s', left - {k}) && s'.run.phase == Rewriting(left - {k})
  {
  }

  /** A row still to be re-pointed reads as it does in the source. */
  lemma LoggedView(s: State, left: set<Key>, k: Key)
    requires Logged(s, left) && k in left
    ensures PartialView(s.fs, s.run.to) == Some(s.run.src + Rewrites(s.run.src, s.run.from, s.run.to, left))
    ensures k in PartialView(s.fs, s.run.to).value && PartialView(s.fs, s.run.to).value[k] == s.run.src[k]
  {
    assert s.run.src + map[] == s.run.src;
  }

  lemma RecordCore(s: State, auditId: string)
    requires Core(s) && AtRewriting(s, {})
    ensures Core(RecordMove(s, auditId))
  {
    ScratchKeepsCore(s, RecordMove(s, auditId), Partial(s.run.to, Wal));
  }

  lemma RecordPhase(s: State, auditId: string)
    requires AtRewriting(s, {}) && FreshId(s, auditId)
    ensures PhaseOk(RecordMove(s, auditId))
  {
    var s' := RecordMove(s, auditId);
    ScratchKeepsProgress(s, s', Partial(s.run.to, Wal));
    RecordView(s, auditId);
    assert CopyIsNew(s') by {
      assert MoveEntry(auditId) in Copy(s');
      assert Mentions(Some(Database(Copy(s'))), auditId);
      assert Some(Database(Copy(s'))) in OnDisk(s.fs, DbFile(s.run.to, Main)) ==> DbFile(s.run.to, Main) in s.fs;
    }
  }

  lemma RecordView(s: State, auditId: string)
    requires Logged(s, {})
    ensures PartialView(RecordMove(s, auditId).fs, s.run.to) == Some(Copy(RecordMove(s, auditId)))
  {
    OverlayMove(s.run.src, s.run.from, s.run.to, auditId);
  }

  lemma CloseCopyCore(s: State, db: Db)
    requires Core(s) && AtClosing(s)
    ensures Core(Goto(s, CloseCopy(s.fs, s.run.to, db), Journaling(0)))
  {
    var mid := s.(fs := s.fs[Partial(s.run.to, Main) := Slot(Some(Database(db)), {Some(Database(db))})]);
    ScratchKeepsCore(s, mid, Partial(s.run.to, Main));
    ScratchKeepsCore(mid, Goto(s, CloseCopy(s.fs, s.run.to, db), Journaling(0)), Partial(s.run.to, Wal));
  }

  lemma CloseCopyPhase(s: State)
    requires AtClosing(s)
    ensures PhaseOk(Goto(s, CloseCopy(s.fs, s.run.to, Copy(s)), Journaling(0)))
  {
    var mid := s.(fs := s.fs[Partial(s.run.to, Main) := Slot(Some(Database(Copy(s))), {Some(Database(Copy(s)))})]);
    var s' := Goto(s, CloseCopy(s.fs, s.run.to, Copy(s)), Journaling(0));
    ScratchKeepsProgress(s, mid, Partial(s.run.to, Main));
    ScratchKeepsProgress(mid, s', Partial(s.run.to, Wal));
    assert Holds(s'.fs, Partial(s.run.to, Main), Database(Copy(s))) && Now(s'.fs, Partial(s.run.to, Wal)).None?;
    ClosedPhase(s, s');
  }

  lemma ClosedPhase(s: State, s': State)
    requires Prepared(s) && s'.run == s.run.(phase := Journaling(0)) && s'.past == s.past
    requires Working(s') && Copied(s', {}) && CopyIsNew(s')
    requires Holds(s'.fs, Partial(s.run.to, Main), Database(Copy(s))) && Now(s'.fs, Partial(s.run.to, Wal)).None?
    ensures PhaseOk(s')
  {
  }

  lemma JournalCore(s: State, stage: nat)
    requires Core(s) && AtJournaling(s, stage) && stage < 3
    ensures Core(JournalNext(s, stage))
  {
    assert JournalFor(s) == OwnJournal(s);
    assert JournalOk(JournalNext(s, stage));
    ScratchKeepsCore(s, JournalNext(s, stage), Journal);
  }

  lemma JournalPhase(s: State, stage: nat)
    requires AtJournaling(s, stage) && stage < 3
    ensures PhaseOk(JournalNext(s, stage))
  {
    ScratchKeepsProgress(s, JournalNext(s, stage), Journal);
    assert JournalFor(s) == OwnJournal(s);
    assert Copied(JournalNext(s, stage), {}) by {
      assert Copied(s, {});
    }
  }

  /** Syncing a directory leaves files elsewhere alone. */
  lemma SyncOthers(fs: Fs, d: Directory)
    ensures forall id :: !Inside(id, d) ==> At(SyncDir(fs, d), id) == At(fs, id)
    ensures forall id :: Inside(id, d) ==> At(SyncDir(fs, d), id) == Settle(At(fs, id))
  {
  }

  lemma SyncConfigFiles(fs: Fs)
    ensures forall q :: SameBooks(fs, SyncDir(fs, Config), q)
    ensures MainsWhole(fs) ==> MainsWhole(SyncDir(fs, Config))
  {
  }

  /** Syncing the config directory settles which folder the pointer file names. */
  lemma SyncPointer(s: State, s': State)
    requires Core(s)
    requires s' == s.(fs := SyncDir(s.fs, Config), run := s'.run)
    ensures Core(s') && Resolve(s') == Resolve(s) && Options(s') == {Resolve(s)}
  {
    ResolveIsOption(s);
    SyncOthers(s.fs, Config);
    SyncConfigFiles(s.fs);
    assert OnDisk(s'.fs, Pointer) == {Now(s.fs, Pointer)};
    SameReads(s.fs, s'.fs, Resolve(s));
    assert OnDisk(s'.fs, Journal) <= OnDisk(s.fs, Journal);
  }

  lemma JournalSyncPhase(s: State)
    requires AtJournaling(s, 3)
    requires Options(JournalNext(s, 3)) == {Resolve(s)} && Resolve(s) in Options(s)
    ensures PhaseOk(JournalNext(s, 3))
  {
    JournalSynced(s, JournalNext(s, 3));
    assert AtFinalising(JournalNext(s, 3));
  }

  lemma JournalSynced(s: State, s': State)
    requires AtJournaling(s, 3) && s' == Goto(s, SyncDir(s.fs, Config), Finalising)
    requires Options(s') == {Resolve(s)} && Resolve(s) in Options(s)
    ensures Closed(s') && Holds(s'.fs, Journal, OwnJournal(s')) && Options(s') == {s'.run.from}
  {
    SyncOthers(s.fs, Config);
    assert Copied(s', {}) by {
      assert Copied(s, {});
    }
    SyncKeepsWorking(s, s');
  }

  lemma SyncKeepsWorking(s: State, s': State)
    requires Working(s) && s'.run == s.run.(phase := s'.run.phase) && s' == s.(fs := s'.fs, run := s'.run)
    requires forall id :: !Inside(id, Config) ==> At(s'.fs, id) == At(s.fs, id)
    requires Options(s') == {Resolve(s)} && Resolve(s) in Options(s) && Resolve(s') == Resolve(s)
    ensures Working(s')
  {
  }

  lemma FinaliseCore(s: State)
    requires Core(s) && AtFinalising(s)
    ensures Core(Finalise(s))
  {
    var s', a, b := Finalise(s), Partial(s.run.to, Main), DbFile(s.run.to, Main);
    var mid := s.(fs := s.fs[b := At(s'.fs, b)]);
    assert Whole(At(s.fs, b));
    ScratchKeepsCore(s, mid, b);
    ScratchKeepsCore(mid, s', a);
  }

  lemma FinalisePhase(s: State)
    requires AtFinalising(s)
    ensures PhaseOk(Finalise(s))
  {
    var s' := Finalise(s);
    FinaliseFiles(s, s');
    assert AtSyncingTarget(s');
  }

  lemma FinaliseFiles(s: State, s': State)
    requires AtFinalising(s) && s' == Finalise(s)
    ensures Frozen(s') && Prepared(s') && Now(s'.fs, DbFile(s.run.to, Main)) == Some(Database(Copy(s)))
    ensures Options(s') == Options(s) && At(s'.fs, Journal) == At(s.fs, Journal)
    ensures At(s'.fs, Partial(s.run.to, Wal)) == At(s.fs, Partial(s.run.to, Wal))
  {
    FinaliseOthers(s);
    assert Copied(s', {}) by {
      assert Copied(s, {});
    }
    FinaliseFrozen(s, s');
  }

  lemma FinaliseOthers(s: State)
    ensures forall id :: id != Partial(s.run.to, Main) && id != DbFile(s.run.to, Main) ==>
      At(Finalise(s).fs, id) == At(s.fs, id)
    ensures Now(Finalise(s).fs, DbFile(s.run.to, Main)) == Now(s.fs, Partial(s.run.to, Main))
    ensures Options(Finalise(s)) == Options(s) && Resolve(Finalise(s)) == Resolve(s)
  {
    assert OnDisk(Finalise(s).fs, Pointer) == OnDisk(s.fs, Pointer);
  }

  lemma FinaliseFrozen(s: State, s': State)
    requires AtFinalising(s) && s' == Finalise(s)
    requires forall id :: id != Partial(s.run.to, Main) && id != DbFile(s.run.to, Main) ==>
      At(s'.fs, id) == At(s.fs, id)
    requires Options(s') == Options(s) && Resolve(s') == Resolve(s)
    ensures Frozen(s')
  {
    assert At(s'.fs, DbFile(s.run.to, Wal)) == At(s.fs, DbFile(s.run.to, Wal));
  }

  lemma SyncTargetCore(s: State)
    requires Core(s) && AtSyncingTarget(s)
    ensures Core(SyncTarget(s))
  {
    SyncOthers(s.fs, Folder(s.run.to));
    SyncMains(s.fs, Folder(s.run.to));
    KeepCore(s, SyncTarget(s));
  }

  lemma SyncMains(fs: Fs, d: Directory)
    requires MainsWhole(fs)
    ensures MainsWhole(SyncDir(fs, d))
  {
  }

  lemma SyncTargetPhase(s: State)
    requires AtSyncingTarget(s) && Whole(At(s.fs, DbFile(s.run.to, Main)))
    ensures PhaseOk(SyncTarget(s))
  {
    var s', to := SyncTarget(s), s.run.to;
    SyncOthers(s.fs, Folder(to));
    assert Holds(s'.fs, DbFile(to, Main), Database(Copy(s)));
    assert At(s'.fs, Pointer) == At(s.fs, Pointer) && At(s'.fs, Journal) == At(s.fs, Journal);
    SyncTargetFrozen(s, s');
    assert Arrived(s');
  }

  lemma SyncTargetFrozen(s: State, s': State)
    requires AtSyncingTarget(s) && s'.fs == SyncDir(s.fs, Folder(s.run.to)) && s' == s.(fs := s'.fs, run := s'.run)
    requires s'.run == s.run.(phase := s'.run.phase)
    requires forall id :: !Inside(id, Folder(s.run.to)) ==> At(s'.fs, id) == At(s.fs, id)
    requires forall id :: Inside(id, Folder(s.run.to)) ==> At(s'.fs, id) == Settle(At(s.fs, id))
    requires Holds(s'.fs, DbFile(s.run.to, Main), Database(Copy(s)))
    ensures Frozen(s') && Prepared(s')
    ensures Solid(s'.fs, DbFile(s.run.to, Wal)) && OnDisk(s'.fs, Partial(s.run.to, Wal)) == {None}
  {
    assert Copied(s', {}) by {
      assert Copied(s, {});
    }
    assert OnDisk(s'.fs, Pointer) == OnDisk(s.fs, Pointer);
  }

  lemma TmpCore(s: State, stage: nat)
    requires Core(s)
    requires AtWritingTmp(s, stage)
    ensures Core(TmpNext(s, stage))
  {
    ScratchKeepsCore(s, TmpNext(s, stage), PointerTmp);
  }

  lemma TmpPhase(s: State, stage: nat)
    requires AtWritingTmp(s, stage)
    ensures PhaseOk(TmpNext(s, stage))
  {
    ScratchKeepsProgress(s, TmpNext(s, stage), PointerTmp);
  }

  /** The copy at the target says what the books say, and holds every document, before the pointer
      file names it. */
  lemma CopyIsComplete(s: State)
    requires Core(s) && AtSwapping(s)
    ensures Settled(s.fs, s.run.to) && ContentOf(s.fs, s.run.to) == Some(Copy(s))
    ensures Said(Copy(s), s.run.to) == s.past.books
    ensures forall rel :: rel in s.past.papers ==> Now(s.fs, Doc(s.run.to, rel)) == Some(Blob(s.past.papers[rel]))
  {
    assert s.run.src + map[] == s.run.src && Copy(s) + map[] == Copy(s);
    CopySaysTheSame(s.run.src, s.run.from, s.run.to, s.run.auditId);
    assert Copied(s, {});
    forall rel | rel in s.past.papers
      ensures Now(s.fs, Doc(s.run.to, rel)) == Some(Blob(s.past.papers[rel]))
    {
      assert Holds(s.fs, Doc(s.run.to, rel), s.run.store[rel]);
    }
  }

  lemma SwapPointer(s: State)
    requires PointerWhole(s) && Holds(s.fs, PointerTmp, PointerTo(s.run.to))
    ensures Resolve(Swap(s)) == s.run.to
    ensures Options(Swap(s)) == Options(s) + {s.run.to}
    ensures PointerWhole(Swap(s))
    ensures forall id :: id != Pointer && id != PointerTmp ==> At(Swap(s).fs, id) == At(s.fs, id)
  {
  }

  /** Swapping the pointer adds the new folder to what may be resolved, with the same books. */
  lemma SwapCore(s: State)
    requires Core(s) && AtSwapping(s)
    ensures Core(Swap(s))
  {
    var s' := Swap(s);
    SwapPointer(s);
    SwapMains(s);
    assert OnDisk(s'.fs, Journal) == OnDisk(s.fs, Journal) == {Some(OwnJournal(s))};
    SwapSafe(s);
    SwapReverts(s);
    SwappedCore(s, s');
  }

  lemma SwappedCore(s: State, s': State)
    requires AtSwapping(s) && s'.past.made == s.past.made && s'.conns == s.conns
    requires PointerWhole(s') && MainsWhole(s'.fs) && Safe(s') && LogTruthful(s') && Reverts(s', s.run.from)
    requires Resolve(s') == s.run.to && Options(s') == Options(s) + {s.run.to}
    requires OnDisk(s'.fs, Journal) == {Some(OwnJournal(s))}
    ensures Core(s')
  {
    assert JournalOk(s');
  }

  lemma SwapMains(s: State)
    requires PointerWhole(s) && MainsWhole(s.fs) && Holds(s.fs, PointerTmp, PointerTo(s.run.to))
    ensures MainsWhole(Swap(s).fs)
  {
    SwapPointer(s);
    forall d
      ensures Whole(At(Swap(s).fs, DbFile(d, Main)))
    {
      assert Whole(At(s.fs, DbFile(d, Main)));
    }
  }

  lemma SwapSafe(s: State)
    requires Core(s) && AtSwapping(s)
    ensures Safe(Swap(s)) && LogTruthful(Swap(s))
  {
    SwapPointer(s);
    CopyIsComplete(s);
    SwapFolders(s, s.run.to);
    SolidLogIsTruthful(Swap(s));
  }

  lemma SwapReverts(s: State)
    requires Core(s) && AtSwapping(s)
    ensures Reverts(Swap(s), s.run.from)
  {
    SourceIsDurable(s);
    SwapFolders(s, s.run.from);
  }

  /** Locked and folded, the source is all on disk. */
  lemma SourceIsDurable(s: State)
    requires Safe(s) && Frozen(s)
    ensures Settled(s.fs, s.run.from) && Said(ContentOf(s.fs, s.run.from).value, s.run.from) == s.past.books
    ensures ContentOf(s.fs, s.run.from) == Some(s.run.src)
  {
    assert s.run.src + map[] == s.run.src;
  }

  lemma SwapFolders(s: State, q: Path)
    requires PointerWhole(s) && Holds(s.fs, PointerTmp, PointerTo(s.run.to))
    ensures SameBooks(s.fs, Swap(s).fs, q)
    ensures ContentOf(Swap(s).fs, q) == ContentOf(s.fs, q)
    ensures Settled(s.fs, q) ==> Settled(Swap(s).fs, q)
  {
  }

  lemma SwapPhase(s: State)
    requires PointerWhole(s) && AtSwapping(s)
    ensures PhaseOk(Swap(s))
  {
  }

  /** The deletions touch nothing the resolvable folder depends on. */
  lemma DeleteCore(s: State, s': State, id: FileId)
    requires Core(s) && Finished(s)
    requires s'.fs == Remove(s.fs, id) && s' == s.(fs := s'.fs, run := s'.run)
    requires id.Journal? || (id.DbFile? && id.dir == s.run.from) || (id.Doc? && id.dir == s.run.from)
    ensures Core(s') && Options(s') == Options(s)
  {
    if id.DbFile? {
      assert Whole(At(s.fs, DbFile(s.run.from, Main)));
    }
    ScratchKeepsCore(s, s', id);
  }

  /** Dying, giving up, or discarding a copy that does not match its source. */
  lemma StopKeeps(s: State, step: Step)
    requires Inv(s) && MoverEnabled(s, step) && (step.Abort? || step.Mismatch?)
    ensures Core(MoverRaw(s, step)) && PhaseOk(MoverRaw(s, step))
  {
    var s' := MoverRaw(s, step);
    if step.Abort? {
      KeepCore(s, s');
    } else if s.run.phase.CopyingDb? {
      ScratchKeepsCore(s, s', Partial(s.run.to, Main));
    } else {
      ScratchKeepsCore(s, s', Doc(s.run.to, s.run.phase.rel));
    }
  }
}
