/**
 Databases the move did not make: refused as targets, and never touched.
 */
module MoveForeign {
  import opened Wrappers
  import opened Paths
  import opened Books
  import opened Disk
  import opened Move
  import opened MoveInvariant
  import opened MoveWorld
  import opened MoveFrames
  import opened MoveRuns

  // ----- someone else's books -----

  /** The move has begun and the pointer has not been renamed yet. */
  predicate BeforeSwap(p: Phase) {
    && !p.Idle? && !p.SyncingConfig? && !p.ReadingBack?
    && !p.Deleting? && !p.DeletingDocs? && !p.DeletingJournal?
  }

  /** A database the move never made, at the final name of a folder the application does not use and
      that no documents store it empties contains. */
  ghost predicate Foreign(s: State, d: Path, db: Db) {
    && Holds(s.fs, DbFile(d, Main), Database(db))
    && d !in Options(s)
    && (!s.run.phase.Idle? ==> d != s.run.from)
    && db !in s.past.made
    && (forall q :: q in Options(s) ==> !StartsWith(d, DocumentsDir(q)))
    && (!s.run.phase.Idle? ==> OutsideStores(s, d))
  }

  predicate OutsideStores(s: State, d: Path) {
    !StartsWith(d, DocumentsDir(s.run.from)) && !StartsWith(d, DocumentsDir(s.run.to))
  }

  /** Whatever the journal says - torn, missing, from another move - it never vouches for a
      foreign database. */
  lemma ForeignIsNeverVouchedFor(s: State, d: Path, db: Db)
    requires Inv(s) && Foreign(s, d, db)
    ensures !JournalMatches(s.fs, Resolve(s), d)
    ensures !s.run.phase.Idle? && PreSwap(s) ==> !JournalMatches(s.fs, s.run.from, d)
  {
  }

  // ----- what each refusal says of the target -----

  /** The final name holds a database, and the journal is not exactly the one of a move between these
      two folders that recorded this content. */
  predicate Unvouched(fs: Fs, from: Path, to: Path) {
    && Now(fs, DbFile(to, Main)).Some?
    && Now(fs, Journal) != Some(JournalOf(from, to, Digest(Now(fs, DbFile(to, Main)).value)))
  }

  /** Each refusal stands for one thing about the files and the two folders. */
  lemma RefusalsExactly(fs: Fs, from: Path, to: Path)
    ensures Validate(fs, from, to) == Some(NothingToMove) <==> Now(fs, DbFile(from, Main)) == None
    ensures Now(fs, DbFile(from, Main)) != None ==>
      && (Validate(fs, from, to) == Some(SameFolder) <==> to == from)
      && (Validate(fs, from, to) == Some(InsideCurrent) <==> from < to)
      && (Validate(fs, from, to) == Some(TargetHasDatabase) <==> !(from <= to) && Unvouched(fs, from, to))
  {
  }

  /** Moving onto it is refused, with the distinct refusal once the target itself is acceptable. */
  lemma ForeignIsRefused(s: State, d: Path, db: Db)
    requires Inv(s) && Foreign(s, d, db)
    ensures !Enabled(s, Begin(d))
    ensures !StartsWith(d, Resolve(s)) ==> Validate(s.fs, Resolve(s), d) == Some(TargetHasDatabase)
  {
    ForeignIsNeverVouchedFor(s, d, db);
    ResolveIsOption(s);
    assert Rooted(s.fs, Resolve(s));
  }

  /** The database of `d` is safe from the move: it is neither the source nor the target. */
  lemma ForeignIsApart(s: State, d: Path, db: Db)
    requires Inv(s) && Foreign(s, d, db) && !s.run.phase.Idle?
    ensures BeforeSwap(s.run.phase) ==> d != s.run.to
  {
    ForeignIsNeverVouchedFor(s, d, db);
    if BeforeSwap(s.run.phase) {
      TargetFreeOrOwn(s);
    }
  }

  lemma TargetFreeOrOwn(s: State)
    requires PhaseOk(s) && BeforeSwap(s.run.phase)
    ensures PreSwap(s)
    ensures Now(s.fs, DbFile(s.run.to, Main)).None? || JournalMatches(s.fs, s.run.from, s.run.to)
  {
  }

  /** Which files a step of the move may change. */
  lemma MoverTouches(s: State, step: Step, d: Path)
    requires IsMover(step) && MoverEnabled(s, step)
    requires !s.run.phase.Idle? ==> d != s.run.from && (BeforeSwap(s.run.phase) ==> d != s.run.to)
    ensures Now(MoverRaw(s, step).fs, DbFile(d, Main)) == Now(s.fs, DbFile(d, Main))
    ensures OnDisk(MoverRaw(s, step).fs, DbFile(d, Main)) <= OnDisk(s.fs, DbFile(d, Main))
  {
    if step.Next? {
      NextTouches(s);
      assert NoWorse(s.fs, MoverNext(s).fs, DbFile(d, Main));
    }
  }

  lemma ForeignMoverStep(s: State, step: Step, d: Path, db: Db)
    requires Inv(s) && Foreign(s, d, db) && IsMover(step) && MoverEnabled(s, step)
    requires step.Begin? ==> !StartsWith(d, DocumentsDir(step.to))
    ensures Foreign(MoverRaw(s, step), d, db)
  {
    ResolveIsOption(s);
    if !s.run.phase.Idle? {
      ForeignIsApart(s, d, db);
    }
    MoverTouches(s, step, d);
    MoverMakes(s, step, d, db);
    MoverOptions(s, step);
    MoverSource(s, step);
  }

  lemma MoverSource(s: State, step: Step)
    requires IsMover(step) && MoverEnabled(s, step)
    ensures MoverRaw(s, step).run.from == if step.Begin? then Resolve(s) else s.run.from
    ensures MoverRaw(s, step).run.to == if step.Begin? then step.to else s.run.to
    ensures s.run.phase.Idle? ==> step.Begin?
  {
    if step.Next? {
      NextKeepsPlan(s);
    }
  }

  lemma MoverMakes(s: State, step: Step, d: Path, db: Db)
    requires IsMover(step) && MoverEnabled(s, step) && Now(s.fs, DbFile(d, Main)) == Some(Database(db))
    requires db !in s.past.made
    ensures db !in MoverRaw(s, step).past.made
  {
    if step.Record? {
      assert DbFile(d, Main) in s.fs && Some(Database(db)) in OnDisk(s.fs, DbFile(d, Main));
      assert !Mentions(Some(Database(db)), step.auditId);
      assert MoveEntry(step.auditId) in MovedCopy(s.run.src, s.run.from, s.run.to, step.auditId);
    } else {
      OnlyRecordMakes(s, step);
    }
  }

  lemma OnlyRecordMakes(s: State, step: Step)
    requires IsMover(step) && MoverEnabled(s, step) && !step.Record?
    ensures MoverRaw(s, step).past.made == s.past.made
  {
  }

  lemma MoverOptions(s: State, step: Step)
    requires Inv(s) && IsMover(step) && MoverEnabled(s, step)
    ensures Options(MoverRaw(s, step)) <= Options(s) + (if BeforeSwap(s.run.phase) then {s.run.to} else {})
  {
    if step.Next? && s.run.phase.Swapping? {
      SwapPointer(s);
    } else {
      PointerSettles(s, step);
      OptionsShrink(s, MoverRaw(s, step));
    }
  }

  lemma OptionsShrink(s: State, s': State)
    requires s'.fallback == s.fallback && OnDisk(s'.fs, Pointer) <= OnDisk(s.fs, Pointer)
    ensures Options(s') <= Options(s)
  {
  }

  lemma ForeignWorldStep(s: State, step: Step, d: Path, db: Db)
    requires Inv(s) && Foreign(s, d, db) && !IsMover(step) && WorldEnabled(s, step)
    requires !(step.Tamper? && step.id == DbFile(d, Main))
    ensures Foreign(WorldRaw(s, step), d, db)
  {
    ResolveIsOption(s);
    match step {
      case Commit(pid, rows, papers) => CommitFiles(s.fs, Resolve(s), rows, papers);
      case PowerCut(cut) =>
        CutFolders(s, cut);
        CutOptions(s, cut);
      case Flush(id) => FlushCore(s, id);
      case Tamper(id, file) => OptionsShrink(s, WorldRaw(s, step));
      case _ =>
    }
  }

  /** No step of any run touches a foreign database, short of someone writing that very file. */
  lemma ForeignStep(s: State, step: Step, d: Path, db: Db)
    requires Inv(s) && Foreign(s, d, db) && Covered(s, step) && Respects(step, d)
    ensures Foreign(Apply(s, step), d, db)
  {
    if IsMover(step) {
      ForeignMoverStep(s, step, d, db);
    } else {
      ForeignWorldStep(s, step, d, db);
    }
  }

  /** The step does not write the file itself, and starts no move into a folder whose documents
      store contains `d`. */
  predicate Respects(step: Step, d: Path) {
    && !(step.Tamper? && step.id == DbFile(d, Main))
    && (step.Begin? ==> !StartsWith(d, DocumentsDir(step.to)))
  }

  /** Over every run, a foreign database stays bit for bit what it was. */
  lemma {:induction false} ForeignDatabasesAreNeverTouched(
    states: seq<State>, steps: seq<Step>, n: nat, d: Path, db: Db)
    requires IsRun(states, steps) && Inv(states[0]) && Foreign(states[0], d, db) && n < |states|
    requires forall i :: 0 <= i < n ==> Respects(steps[i], d)
    ensures Foreign(states[n], d, db)
  {
    if n > 0 {
      ForeignDatabasesAreNeverTouched(states, steps, n - 1, d, db);
      RunKeeps(states, steps, n - 1);
      ForeignStep(states[n - 1], steps[n - 1], d, db);
    }
  }

  // ----- the same, path by path -----

  /** Whatever file a step of the move changes, its path is not that of the foreign database: no
      other name of the move's reaches it. */
  lemma ForeignPathIsNeverWritten(s: State, step: Step, d: Path, db: Db, id: FileId)
    requires Inv(s) && Foreign(s, d, db) && IsMover(step) && MoverEnabled(s, step) && Respects(step, d)
    requires Now(MoverRaw(s, step).fs, id) != Now(s.fs, id)
    ensures PathOf(id, s.config) != PathOf(DbFile(d, Main), s.config)
  {
    ForeignMoverStep(s, step, d, db);
    MoverWrites(s, step, id);
    DatabasePathIsApart(id, d, s.config);
  }

  /** The files a step of the move changes lie in its two folders or the config folder. */
  lemma MoverWrites(s: State, step: Step, id: FileId)
    requires IsMover(step) && MoverEnabled(s, step) && Now(MoverRaw(s, step).fs, id) != Now(s.fs, id)
    ensures !step.Begin? && !s.run.phase.Idle?
    ensures id.Doc? ==> id.dir == s.run.from || id.dir == s.run.to
  {
    if step.Next? {
      NextTouches(s);
      assert Touches(s, id);
    }
  }
}
