/**
 What the assumptions of the move are for: a second mover, a handle opened late, and a log left
 behind by a crash, each with the exact circumstances in which it costs a commit.
 */
module MoveHazards {
  import opened Wrappers
  import opened Paths
  import opened Books
  import opened Disk
  import opened Move
  import opened MoveInvariant
  import opened MoveWorld
  import opened MoveRuns
  import opened MoveForeign
  import opened MoveResume

  // ----- a second mover -----

  /** The copy stands at the target's final name and the pointer has not been renamed. */
  predicate Late(p: Phase) {
    p.SyncingTarget? || p.WritingTmp? || p.Swapping?
  }

  /** A second process that validates the same target finds a database there and goes on to remove
      it exactly while the first one's copy stands at the final name, or an earlier one still does:
      validation and cleaning come before the lock. */
  lemma SecondMoverRemovesExactly(s: State)
    requires Inv(s) && BeforeSwap(s.run.phase)
    ensures Now(s.fs, DbFile(s.run.to, Main)).Some? && Validate(s.fs, Resolve(s), s.run.to).None?
       <==> s.run.phase == Cleaning(Main) || Late(s.run.phase)
  {
    InvIsSafe(s);
    TargetFreeOrOwn(s);
  }

  /** A second process has validated the same target and removed what it found there. */
  function Raced(s: State): State {
    s.(fs := Remove(s.fs, DbFile(s.run.to, Main)))
  }

  function StepsLeft(p: Phase): nat {
    match p
    case SyncingTarget => 6
    case WritingTmp(stage) => 3 + (if stage < 2 then 2 - stage else 0)
    case Swapping => 2
    case SyncingConfig => 1
    case _ => 0
  }

  /** The first mover carries on, up to the read-back. */
  function CarryOn(s: State): State
    decreases StepsLeft(s.run.phase)
  {
    if Late(s.run.phase) || s.run.phase.SyncingConfig? then
      FewerStepsLeft(s);
      CarryOn(MoverNext(s))
    else s
  }

  lemma FewerStepsLeft(s: State)
    requires Late(s.run.phase) || s.run.phase.SyncingConfig?
    ensures StepsLeft(MoverNext(s).run.phase) < StepsLeft(s.run.phase)
  {
    match s.run.phase {
      case SyncingTarget => assert MoverNext(s) == SyncTarget(s);
      case WritingTmp(stage) => assert MoverNext(s) == TmpNext(s, stage);
      case Swapping => assert MoverNext(s) == Swap(s);
      case SyncingConfig => assert MoverNext(s) == SyncConfig(s);
    }
  }

  /** The copy is gone from the final name; the pointer's temporary file is as far as it should be. */
  predicate Doomed(s: State) {
    && (Late(s.run.phase) || s.run.phase.SyncingConfig?) && s.run.from != s.run.to
    && Now(s.fs, DbFile(s.run.to, Main)).None?
    && (s.run.phase.WritingTmp? ==> s.run.phase.stage <= 2)
    && (s.run.phase == WritingTmp(2) || s.run.phase.Swapping? ==> Now(s.fs, PointerTmp) == Some(PointerTo(s.run.to)))
    && (s.run.phase.SyncingConfig? ==> Resolve(s) == s.run.to)
  }

  lemma DoomedStep(s: State)
    requires Doomed(s)
    ensures if s.run.phase.SyncingConfig?
            then Lost(MoverNext(s))
            else Doomed(MoverNext(s))
    ensures MoverNext(s).run.from == s.run.from && MoverNext(s).run.to == s.run.to
  {
    match s.run.phase {
      case SyncingTarget => DoomedSync(s);
      case WritingTmp(stage) => assert MoverNext(s) == TmpNext(s, stage);
      case Swapping => assert MoverNext(s) == Swap(s);
      case SyncingConfig => DoomedSync(s);
    }
  }

  lemma DoomedSync(s: State)
    requires Doomed(s) && (s.run.phase.SyncingTarget? || s.run.phase.SyncingConfig?)
    ensures if s.run.phase.SyncingConfig? then Lost(MoverNext(s)) else Doomed(MoverNext(s))
    ensures MoverNext(s).run.from == s.run.from && MoverNext(s).run.to == s.run.to
  {
    SyncOthers(s.fs, Config);
    SyncOthers(s.fs, Folder(s.run.to));
    if s.run.phase.SyncingTarget? {
      assert MoverNext(s) == SyncTarget(s);
    } else {
      assert MoverNext(s) == SyncConfig(s);
    }
  }

  /** The read-back succeeds, although the folder it confirms has no database. */
  predicate Lost(s: State) {
    s.run.phase.ReadingBack? && Resolve(s) == s.run.to && s.run.from != s.run.to && ContentOf(s.fs, s.run.to).None?
  }

  lemma {:induction false} DoomedEnds(s: State)
    requires Doomed(s)
    ensures Lost(CarryOn(s)) && CarryOn(s).run.from == s.run.from && CarryOn(s).run.to == s.run.to
    decreases StepsLeft(s.run.phase)
  {
    DoomedStep(s);
    if !s.run.phase.SyncingConfig? {
      DoomedEnds(MoverNext(s));
    }
  }

  /** From every such late state: the first mover swaps the pointer, reads it back successfully and
      deletes the old database. Neither folder has one. */
  lemma SecondMoverDestroysTheBooks(s: State)
    requires Inv(s) && Late(s.run.phase)
    ensures MoverEnabled(CarryOn(Raced(s)), Next) && MoverEnabled(MoverNext(CarryOn(Raced(s))), Next)
    ensures var t := MoverNext(MoverNext(CarryOn(Raced(s))));
      && Resolve(t) == s.run.to && ContentOf(t.fs, s.run.to).None? && ContentOf(t.fs, s.run.from).None?
  {
    assert PhaseOk(s);
    assert Doomed(Raced(s));
    DoomedEnds(Raced(s));
    LostIsLost(CarryOn(Raced(s)));
  }

  /** Between the second mover's validation and its removal the first one may have gone further. Once the
      pointer names the new folder, the removal leaves no database there at once. */
  lemma RemovalAfterTheSwapEmptiesTheBooks(s: State)
    requires Inv(s) && Resolve(s) == s.run.to
    ensures ContentOf(s.fs, s.run.to).Some?
    ensures Resolve(Raced(s)) == s.run.to && ContentOf(Raced(s).fs, s.run.to).None?
  {
    InvIsSafe(s);
  }

  /** And the first mover, with the old database still in place, goes on to delete that as well. */
  lemma RemovalAfterTheSwapDestroysTheBooks(s: State)
    requires Inv(s) && (s.run.phase.SyncingConfig? || s.run.phase.ReadingBack? || s.run.phase == Deleting(Main))
    ensures Resolve(s) == s.run.to
    ensures var t := OldMainRemoved(CarryOn(Raced(s)));
      && Resolve(t) == s.run.to && ContentOf(t.fs, s.run.to).None? && ContentOf(t.fs, s.run.from).None?
  {
    SwappedTo(s);
    if s.run.phase.SyncingConfig? {
      DoomedEnds(Raced(s));
      LostIsLost(CarryOn(Raced(s)));
    } else if s.run.phase.ReadingBack? {
      LostIsLost(Raced(s));
    } else {
      DeletedIsLost(Raced(s));
    }
  }

  lemma SwappedTo(s: State)
    requires Inv(s) && (s.run.phase.SyncingConfig? || s.run.phase.ReadingBack? || s.run.phase == Deleting(Main))
    ensures Resolve(s) == s.run.to && s.run.from != s.run.to
    ensures s.run.phase.SyncingConfig? ==> Doomed(Raced(s))
    ensures s.run.phase.ReadingBack? ==> Lost(Raced(s))
  {
    assert PhaseOk(s);
    ResolveIsOption(s);
  }

  /** The first mover's steps up to the removal of the old main file. */
  function OldMainRemoved(e: State): State {
    if e.run.phase.ReadingBack? then MoverNext(MoverNext(e)) else if e.run.phase.Deleting? then MoverNext(e) else e
  }

  lemma DeletedIsLost(d: State)
    requires d.run.phase == Deleting(Main) && d.run.from != d.run.to
    requires Resolve(d) == d.run.to && ContentOf(d.fs, d.run.to).None?
    ensures var t := MoverNext(d);
      Resolve(t) == d.run.to && ContentOf(t.fs, d.run.to).None? && ContentOf(t.fs, d.run.from).None?
  {
    assert MoverNext(d) == Goto(d, Remove(d.fs, DbFile(d.run.from, Main)), AfterDeleting(d, Main));
  }

  lemma LostIsLost(e: State)
    requires Lost(e)
    ensures MoverEnabled(e, Next) && MoverEnabled(MoverNext(e), Next)
    ensures var t := MoverNext(MoverNext(e));
      Resolve(t) == e.run.to && ContentOf(t.fs, e.run.to).None? && ContentOf(t.fs, e.run.from).None?
  {
    var d := MoverNext(e);
    assert d == Goto(e, e.fs, Deleting(Main)).(lock := None);
    assert MoverNext(d) == Goto(d, Remove(d.fs, DbFile(e.run.from, Main)), AfterDeleting(d, Main));
  }

  // ----- a handle opened late -----

  /** The move holds the lock. */
  predicate Locked(p: Phase) {
    !p.Idle? && !p.Cleaning? && !p.Locking? && !p.Deleting? && !p.DeletingDocs? && !p.DeletingJournal?
  }

  /** A process that resolved the old folder some time ago can open it exactly while the move does
      not hold the lock: before it is taken, and again from the moment the deletion begins. */
  lemma OldFolderOpensExactlyWhenUnlocked(s: State)
    requires Inv(s) && !s.run.phase.Idle?
    ensures s.lock != Some(s.run.from) <==> !Locked(s.run.phase)
  {
    assert PhaseOk(s);
  }

  /** What it then commits is read back if and only if its folder is still the resolved one. */
  lemma CommitIsReadExactlyThroughThePointer(s: State, q: Path, rows: Db, k: Key)
    requires Inv(s) && Rooted(s.fs, q)
    requires k in rows && k.Entry? && k !in s.past.books
    ensures RowAt(Committed(s, q, rows, map[]), k) == Some(MeaningOf(rows[k], q)) <==> q == Resolve(s)
    ensures q != Resolve(s) ==> RowAt(Committed(s, q, rows, map[]), k).None?
  {
    InvIsSafe(s);
    RowIsTheBooks(s, k);
    CommitFiles(s.fs, q, rows, map[]);
  }

  /** Whatever is committed to another folder, readers of the resolved one find what they found. */
  lemma CommitElsewhereIsUnseen(s: State, q: Path, rows: Db, k: Key)
    requires q != Resolve(s)
    ensures RowAt(Committed(s, q, rows, map[]), k) == RowAt(s, k)
  {
    CommitElsewhereFiles(s.fs, q, rows);
    SameRow(s, Committed(s, q, rows, map[]), k);
  }

  lemma CommitElsewhereFiles(fs: Fs, q: Path, rows: Db)
    ensures forall id :: id != DbFile(q, Wal) ==> At(AddPapers(AddRows(fs, q, rows), q, map[]), id) == At(fs, id)
  {
    PapersAdded(AddRows(fs, q, rows), q, map[]);
  }

  lemma SameRow(s: State, s': State, k: Key)
    requires s'.fallback == s.fallback && At(s'.fs, Pointer) == At(s.fs, Pointer)
    requires At(s'.fs, DbFile(Resolve(s), Main)) == At(s.fs, DbFile(Resolve(s), Main))
    requires At(s'.fs, DbFile(Resolve(s), Wal)) == At(s.fs, DbFile(Resolve(s), Wal))
    ensures Resolve(s') == Resolve(s) && RowAt(s', k) == RowAt(s, k)
  {
  }

  /** Opening the old folder's database: the file that is there, or, once it is deleted, a new one that
      holds what a new database holds. */
  function OldOpened(s: State, seed: Db): State {
    var id := DbFile(s.run.from, Main);
    if Now(s.fs, id).Some? then s
    else s.(fs := s.fs[id := Slot(Some(Database(seed)), OnDisk(s.fs, id) + {Some(Database(seed))})])
  }

  /** So resolving and opening have to be one step: a handle on the old folder opened once the
      deletion has begun, on what is left of the old database or on a new one, commits where nobody will
      look. */
  lemma LateOpenerLosesItsCommit(s: State, seed: Db, rows: Db, k: Key)
    requires Inv(s) && Deletes(s.run.phase) && k in rows && k.Entry? && k !in s.past.books
    ensures s.lock != Some(s.run.from)
    ensures RowAt(Committed(OldOpened(s, seed), s.run.from, rows, map[]), k).None?
  {
    assert Finished(s);
    ResolveIsOption(s);
    InvIsSafe(s);
    RowIsTheBooks(s, k);
    OpeningIsUnseen(s, seed, k);
    CommitElsewhereIsUnseen(OldOpened(s, seed), s.run.from, rows, k);
  }

  lemma OpeningIsUnseen(s: State, seed: Db, k: Key)
    requires Resolve(s) != s.run.from
    ensures Resolve(OldOpened(s, seed)) == Resolve(s) && RowAt(OldOpened(s, seed), k) == RowAt(s, k)
  {
  }

  predicate Deletes(p: Phase) {
    p.Deleting? || p.DeletingDocs? || p.DeletingJournal?
  }
}
