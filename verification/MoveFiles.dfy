/**
 Which files a step of the move may change, and what it may not: the frame conditions the
 straight-line code of the move is proved with.
 */
module MoveFiles {
  import opened Wrappers
  import opened Paths
  import opened Books
  import opened Disk
  import opened Move
  import opened MoveInvariant
  import opened MoveWorld
  import opened MoveFrames
  import opened MoveRuns

  /** The old folder reads the same: the database's content and every document. */
  ghost predicate SourceKept(fs: Fs, fs': Fs, from: Path) {
    && ContentOf(fs', from) == ContentOf(fs, from)
    && forall rel :: Now(fs', Doc(from, rel)) == Now(fs, Doc(from, rel))
  }

  /** No file of any folder but these two has changed. */
  ghost predicate OthersKept(fs: Fs, fs': Fs, from: Path, to: Path) {
    forall id: FileId :: FolderOfFile(id).Some? && FolderOfFile(id).value != from && FolderOfFile(id).value != to ==>
      Now(fs', id) == Now(fs, id)
  }

  ghost predicate Kept(s: State, s': State) {
    && SourceKept(s.fs, s'.fs, s.run.from)
    && OthersKept(s.fs, s'.fs, s.run.from, s.run.to)
    && s'.run.from == s.run.from && s'.run.to == s.run.to
    && s'.conns == s.conns
  }

  /** Only one file differs, and it is none of the old folder's. */
  lemma OneFile(s: State, s': State, id: FileId)
    requires s.run.from != s.run.to && id in s'.fs && s'.fs == s.fs[id := s'.fs[id]]
    requires FolderOfFile(id) == None || FolderOfFile(id) == Some(s.run.to)
    requires s'.run.from == s.run.from && s'.run.to == s.run.to && s'.conns == s.conns
    ensures Kept(s, s')
  {
  }

  /** Syncing a directory changes nothing anyone can see. */
  lemma SyncKeeps(s: State, s': State, d: Directory)
    requires s'.fs == SyncDir(s.fs, d)
    requires s'.run.from == s.run.from && s'.run.to == s.run.to && s'.conns == s.conns
    ensures Kept(s, s') && forall id :: Now(s'.fs, id) == Now(s.fs, id)
  {
  }

  lemma LockKeepsFiles(s: State, db: Db)
    requires ContentOf(s.fs, s.run.from) == Some(db) && s.run.from != s.run.to
    ensures Kept(s, LockAndFold(s, db))
  {
    assert db + map[] == db;
  }

  /** Up to the deletions the move keeps the old folder, and every other one but its target. */
  lemma NextKept(s: State)
    requires MoverEnabled(s, Next) && !Removes(s.run.phase) && s.run.from != s.run.to
    ensures Kept(s, MoverNext(s))
  {
    if s.run.phase.Locking? {
      LockKeepsFiles(s, ContentOf(s.fs, s.run.from).value);
    } else {
      NextTouches(s);
      NextKeepsPlan(s);
      UntouchedKept(s, MoverNext(s));
    }
  }

  predicate Removes(p: Phase) {
    p.Deleting? || p.DeletingDocs? || p.DeletingJournal?
  }

  lemma UntouchedKept(s: State, s': State)
    requires !s.run.phase.Locking? && !Removes(s.run.phase) && s.run.from != s.run.to
    requires forall id :: !Touches(s, id) ==> NoWorse(s.fs, s'.fs, id)
    requires PlanKept(s, s')
    ensures Kept(s, s')
  {
    var from, to := s.run.from, s.run.to;
    assert !Touches(s, DbFile(from, Main)) && !Touches(s, DbFile(from, Wal));
    forall rel
      ensures Now(s'.fs, Doc(from, rel)) == Now(s.fs, Doc(from, rel))
    {
      assert !Touches(s, Doc(from, rel));
    }
    forall id: FileId | FolderOfFile(id).Some? && FolderOfFile(id).value != from && FolderOfFile(id).value != to
      ensures Now(s'.fs, id) == Now(s.fs, id)
    {
      assert !Touches(s, id);
    }
  }

  lemma RowKept(s: State, step: Step)
    requires MoverEnabled(s, step) && (step.TakeRow? || step.Record? || step.LeaveLog?) && s.run.from != s.run.to
    ensures Kept(s, MoverRaw(s, step))
  {
    var s' := MoverRaw(s, step);
    OneFile(s, s', Partial(s.run.to, if step.LeaveLog? then Main else Wal));
  }

  lemma StopKept(s: State, step: Step)
    requires MoverEnabled(s, step) && (step.Abort? || step.Mismatch?) && s.run.from != s.run.to
    ensures Kept(s, MoverRaw(s, step)) && MoverRaw(s, step).run.phase.Idle?
    ensures Now(MoverRaw(s, step).fs, DbFile(s.run.to, Main)) == Now(s.fs, DbFile(s.run.to, Main))
  {
    var s' := MoverRaw(s, step);
    if step.Abort? {
      assert s' == Stopped(s);
    } else {
      var id := if s.run.phase.CopyingDb? then Partial(s.run.to, Main) else Doc(s.run.to, s.run.phase.rel);
      assert s' == Stopped(s.(fs := Remove(s.fs, id)));
      OneFile(s, s', id);
    }
  }

  /** The store lists the same documents when every document reads the same. */
  lemma SameStore(fs: Fs, fs': Fs, dir: Path)
    requires forall rel :: Now(fs', Doc(dir, rel)) == Now(fs, Doc(dir, rel))
    ensures StoreOf(fs', dir) == StoreOf(fs, dir) && StoreNames(fs', dir) == StoreNames(fs, dir)
  {
  }

  // ----- the copy, from its close on -----

  /** The new folder reads as a main file that holds `c` by itself, and has every document. */
  ghost predicate Landed(s: State, c: Content) {
    && ContentOf(s.fs, s.run.to) == Recover(Some(c), None)
    && DocsThere(s)
  }

  ghost predicate DocsThere(s: State) {
    forall rel :: rel in s.run.store ==> Now(s.fs, Doc(s.run.to, rel)) == Some(s.run.store[rel])
  }

  predicate SamePlan(s: State, s': State) {
    && s'.run.from == s.run.from && s'.run.to == s.run.to && s'.run.src == s.run.src
    && s'.run.store == s.run.store && s'.run.auditId == s.run.auditId
    && s'.run.copied == s.run.copied && s'.run.rewritten == s.run.rewritten
  }

  lemma LandedStays(s: State, s': State, c: Content)
    requires Landed(s, c) && SamePlan(s, s')
    requires Now(s'.fs, DbFile(s.run.to, Main)) == Now(s.fs, DbFile(s.run.to, Main))
    requires Now(s'.fs, DbFile(s.run.to, Wal)) == Now(s.fs, DbFile(s.run.to, Wal))
    requires forall rel :: Now(s'.fs, Doc(s.run.to, rel)) == Now(s.fs, Doc(s.run.to, rel))
    ensures Landed(s', c)
  {
  }

  /** Between the close of the copy and the swap, its main file holds `c`, under the partial name and
      then under the final one; every document is there, and every count is made. */
  ghost predicate Bears(s: State, c: Content) {
    && BlankLog(Now(s.fs, DbFile(s.run.to, Wal))) && DocsThere(s)
    && s.run.rewritten == |StoreKeys(s.run.src, s.run.from)|
    && CopyAt(s, c)
  }

  predicate CopyAt(s: State, c: Content) {
    match s.run.phase
    case Journaling(stage) => stage <= 3 && Now(s.fs, Partial(s.run.to, Main)) == Some(c)
    case Finalising => Now(s.fs, Partial(s.run.to, Main)) == Some(c)
    case SyncingTarget => Now(s.fs, DbFile(s.run.to, Main)) == Some(c)
    case WritingTmp(stage) =>
      && Now(s.fs, DbFile(s.run.to, Main)) == Some(c) && stage <= 2
      && (stage == 2 ==> Now(s.fs, PointerTmp) == Some(PointerTo(s.run.to)))
    case Swapping =>
      Now(s.fs, DbFile(s.run.to, Main)) == Some(c) && Now(s.fs, PointerTmp) == Some(PointerTo(s.run.to))
    case _ => false
  }

  /** A step of the commit window carries it along, whatever it holds. */
  lemma BearsOn(s: State, c: Content)
    requires Bears(s, c) && Committing(s.run.phase)
    ensures Bears(MoverNext(s), c)
  {
    CopyAtNext(s, c);
    RestOfCopyStays(s);
  }

  lemma RestOfCopyStays(s: State)
    requires Committing(s.run.phase)
    ensures Now(MoverNext(s).fs, DbFile(s.run.to, Wal)) == Now(s.fs, DbFile(s.run.to, Wal))
    ensures DocsThere(s) ==> DocsThere(MoverNext(s))
    ensures SamePlan(s, MoverNext(s))
  {
    NextTouches(s);
    NextKeepsPlan(s);
    assert !Touches(s, DbFile(s.run.to, Wal));
    forall rel
      ensures Now(MoverNext(s).fs, Doc(s.run.to, rel)) == Now(s.fs, Doc(s.run.to, rel))
    {
      assert !Touches(s, Doc(s.run.to, rel));
    }
  }

  lemma CopyAtNext(s: State, c: Content)
    requires CopyAt(s, c) && Committing(s.run.phase)
    ensures CopyAt(MoverNext(s), c)
  {
    FollowingPhase(s);
    NextKeepsPlan(s);
    if s.run.phase.Finalising? {
      FinalisedCopy(s, c);
    } else {
      NextTouches(s);
      assert !Touches(s, Partial(s.run.to, Main)) && !Touches(s, DbFile(s.run.to, Main));
      if s.run.phase.WritingTmp? && s.run.phase.stage >= 1 {
        TmpIsWritten(s);
      }
    }
  }

  lemma FinalisedCopy(s: State, c: Content)
    requires s.run.phase.Finalising? && Now(s.fs, Partial(s.run.to, Main)) == Some(c)
    ensures Now(MoverNext(s).fs, DbFile(s.run.to, Main)) == Some(c)
  {
    assert MoverNext(s) == Finalise(s);
  }

  lemma TmpIsWritten(s: State)
    requires s.run.phase.WritingTmp? && s.run.phase.stage >= 1
          && (s.run.phase.stage >= 2 ==> Now(s.fs, PointerTmp) == Some(PointerTo(s.run.to)))
    ensures Now(MoverNext(s).fs, PointerTmp) == Some(PointerTo(s.run.to))
  {
    assert MoverNext(s) == TmpNext(s, s.run.phase.stage);
  }

  lemma BornAcross(s: State, c: Content)
    requires Bears(s, c) && s.run.phase.Swapping?
    ensures Landed(s, c)
  {
    if c.Database? {
      assert c.db + map[] == c.db;
    }
  }

  predicate Committing(p: Phase) {
    p.Journaling? || p.Finalising? || p.SyncingTarget? || p.WritingTmp?
  }

  // ----- deleting the old copy -----

  /** Only the old folder's database and documents, and the journal, have gone; nothing else
      has changed. */
  ghost predicate OnlyOldRemoved(fs: Fs, fs': Fs, from: Path) {
    && (forall id :: Now(fs', id) == Now(fs, id) || Now(fs', id).None?)
    && (forall id :: !Deleted(id, from) && !id.Journal? && !(id.Doc? && id.dir == from) ==> Now(fs', id) == Now(fs, id))
  }

  /** Only documents of the old store have gone; nothing else has changed. */
  ghost predicate OnlyDocsRemoved(fs: Fs, fs': Fs, from: Path) {
    && (forall id :: Now(fs', id) == Now(fs, id) || Now(fs', id).None?)
    && (forall id: FileId :: !(id.Doc? && id.dir == from) ==> Now(fs', id) == Now(fs, id))
  }

  lemma RemoveOne(fs: Fs, id: FileId, from: Path)
    requires Deleted(id, from) || id.Journal? || (id.Doc? && id.dir == from)
    ensures OnlyOldRemoved(fs, Remove(fs, id), from)
  {
  }

  lemma RemovedAlong(a: Fs, b: Fs, c: Fs, from: Path)
    requires OnlyOldRemoved(a, b, from) && OnlyOldRemoved(b, c, from)
    ensures OnlyOldRemoved(a, c, from)
  {
  }

  // ----- fresh audit ids -----

  lemma FreshKept(s: State, s': State, id: FileId, auditId: string)
    requires FreshId(s, auditId) && id in s'.fs && s'.fs == s.fs[id := s'.fs[id]] && s'.past.made == s.past.made
    requires forall f :: f in OnDisk(s'.fs, id) ==> f in OnDisk(s.fs, id) || !Mentions(f, auditId)
    ensures FreshId(s', auditId)
  {
  }

  lemma OnDiskFresh(s: State, id: FileId, f: File, auditId: string)
    requires FreshId(s, auditId) && f in OnDisk(s.fs, id)
    ensures !Mentions(f, auditId)
  {
  }

  /** The content a fresh id was checked against mentions it nowhere either. */
  lemma ContentIsFresh(s: State, dir: Path, auditId: string)
    requires FreshId(s, auditId) && ContentOf(s.fs, dir).Some?
    ensures MoveEntry(auditId) !in ContentOf(s.fs, dir).value
  {
    OnDiskFresh(s, DbFile(dir, Main), Now(s.fs, DbFile(dir, Main)), auditId);
    OnDiskFresh(s, DbFile(dir, Wal), Now(s.fs, DbFile(dir, Wal)), auditId);
  }

  // ----- one step, seen from the state the call began in -----

  /** The folder a step leaves resolved does not depend on anything else. */
  lemma Applied(s: State, step: Step)
    requires IsMover(step) && MoverEnabled(s, step)
    ensures Apply(s, step) == MoverRaw(s, step) && Apply(s, step).fallback == s.fallback
  {
  }

  /** The move from the folder resolved in `s0` to `to` is under way, and so far the old folder
      and every folder but the target read as they did in `s0`. */
  ghost predicate Begun(s0: State, s: State, to: Path) {
    && s.run.from == Resolve(s0) && s.run.to == to && to != Resolve(s0)
    && SourceKept(s0.fs, s.fs, Resolve(s0))
    && OthersKept(s0.fs, s.fs, Resolve(s0), to)
    && s.conns == s0.conns
    && Resolve(s) == Resolve(s0)
  }

  /** The run works on the content and the documents of `s0`. */
  ghost predicate Planned(s0: State, s: State) {
    && ContentOf(s0.fs, Resolve(s0)) == Some(s.run.src)
    && s.run.store == StoreOf(s0.fs, Resolve(s0))
  }

  predicate Ordinary(s: State, step: Step) {
    && (step.Next? || step.TakeDoc? || step.TakeRow? || step.Record? || step.Abort? || step.Mismatch?
        || step.LeaveLog?)
    && BeforeRename(s.run.phase)
  }

  predicate BeforeRename(p: Phase) {
    Copying(p) || p.Auditing? || p.Journaling? || p.Finalising? || p.SyncingTarget? || p.WritingTmp?
  }

  lemma StepBegun(s0: State, s: State, step: Step, to: Path)
    requires Begun(s0, s, to) && MoverEnabled(s, step) && Ordinary(s, step)
    ensures Begun(s0, Apply(s, step), to)
  {
    var raw, s' := MoverRaw(s, step), Apply(s, step);
    Applied(s, step);
    RawKept(s, step);
    PointerStays(s, step);
    KeptSince(s0, s, s', to);
  }

  lemma RawKept(s: State, step: Step)
    requires MoverEnabled(s, step) && Ordinary(s, step) && s.run.from != s.run.to
    ensures Kept(s, MoverRaw(s, step))
  {
    if step.Next? {
      NextKept(s);
    } else if step.Abort? || step.Mismatch? {
      StopKept(s, step);
    } else if step.TakeDoc? {
      assert MoverRaw(s, step).fs == s.fs;
    } else {
      RowKept(s, step);
    }
  }

  lemma KeptSince(s0: State, s: State, s': State, to: Path)
    requires Begun(s0, s, to) && Resolve(s') == Resolve(s)
    requires SourceKept(s.fs, s'.fs, s.run.from) && OthersKept(s.fs, s'.fs, s.run.from, s.run.to)
    requires s'.run.from == s.run.from && s'.run.to == s.run.to && s'.conns == s.conns
    ensures Begun(s0, s', to)
  {
  }

  /** Once locked, a run keeps its plan; once the documents are copied, its file count; once the
      audit row is written, everything it reports. */
  lemma StepKeepsPlan(s: State, step: Step)
    requires MoverEnabled(s, step) && Ordinary(s, step) && !s.run.phase.Cleaning? && !s.run.phase.Locking?
    ensures Apply(s, step).run.src == s.run.src && Apply(s, step).run.store == s.run.store
    ensures !s.run.phase.CopyingDb? && !s.run.phase.CopyingDoc? ==> Apply(s, step).run.copied == s.run.copied
    ensures !s.run.phase.Rewriting? ==> Apply(s, step).run.rewritten == s.run.rewritten
    ensures !step.Record? ==> Apply(s, step).run.auditId == s.run.auditId
    ensures step.Record? ==> Apply(s, step).run.auditId == step.auditId
    ensures Apply(s, step).run.oldRemoved == s.run.oldRemoved
  {
    Applied(s, step);
    if step.Next? {
      NextKeepsPlan(s);
    } else {
      ChoiceKeepsPlan(s, step);
    }
  }

  lemma ChoiceKeepsPlan(s: State, step: Step)
    requires MoverEnabled(s, step) && Ordinary(s, step) && !step.Next?
    ensures MoverRaw(s, step).run.src == s.run.src && MoverRaw(s, step).run.store == s.run.store
    ensures MoverRaw(s, step).run.copied == s.run.copied && MoverRaw(s, step).run.oldRemoved == s.run.oldRemoved
    ensures !s.run.phase.Rewriting? ==> MoverRaw(s, step).run.rewritten == s.run.rewritten
    ensures MoverRaw(s, step).run.auditId == if step.Record? then step.auditId else s.run.auditId
  {
    var s' := MoverRaw(s, step);
    if step.Record? {
      assert s' == RecordMove(s, step.auditId);
    } else if step.TakeRow? {
      assert s' == RewriteRow(s, s.run.phase.left, step.key);
    } else {
      assert s'.run == s.run.(phase := s'.run.phase);
    }
  }

  // ----- the order of the commit window -----

  /** The phase that follows in the commit window. */
  function Following(p: Phase): Phase {
    match p
    case Journaling(stage) => if stage < 3 then Journaling(stage + 1) else Finalising
    case Finalising => SyncingTarget
    case SyncingTarget => WritingTmp(0)
    case WritingTmp(stage) => if stage < 2 then WritingTmp(stage + 1) else Swapping
    case Swapping => SyncingConfig
    case SyncingConfig => ReadingBack
    case _ => p
  }

  lemma FollowingPhase(s: State)
    requires Committing(s.run.phase)
    ensures MoverNext(s).run.phase == Following(s.run.phase)
  {
    match s.run.phase {
      case Journaling(stage) => assert MoverNext(s) == JournalNext(s, stage);
      case Finalising => assert MoverNext(s) == Finalise(s);
      case SyncingTarget => assert MoverNext(s) == SyncTarget(s);
      case WritingTmp(stage) => assert MoverNext(s) == TmpNext(s, stage);
    }
  }
}
