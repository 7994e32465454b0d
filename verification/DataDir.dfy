/**
 The straight-line code of the move, as it runs when nobody interferes. Every file operation is
 one step of the move machine, so each call leaves behind a run of that machine: whatever holds
 of every run holds at every point where the call could be cut short.
 */
module DataDir {
  import opened Wrappers
  import opened Paths
  import opened Books
  import opened Disk
  import opened Move
  import opened MoveInvariant
  import opened MoveWorld
  import opened MoveRuns
  import opened MoveForeign
  import opened MoveResume
  import opened MoveFiles
  import opened MoveSteps

  datatype Failure = Refused(why: Refusal) | Busy | Mismatched | Io

  datatype Report = Report(from: Path, to: Path, filesCopied: nat, documentsRewritten: nat, oldRemoved: bool)

  class DataFolder {
    var st: State

    /** What a failing close of the copy left in its main file; nobody looks. */
    var left: Option<Content>

    /** Unless that has happened, the state is one the invariant of the move machine holds of. */
    ghost predicate Valid()
      reads this
    {
      left.None? ==> Inv(st)
    }

    constructor (initial: State)
      requires Inv(initial)
      ensures Valid() && st == initial && left.None?
    {
      st := initial;
      left := None;
    }

    /** One operation, carried out: the only way the state ever changes. */
    method Do(step: Step)
      requires Valid() && Covered(st, step)
      modifies `st
      ensures Valid() && st == Apply(old(st), step)
    {
      if left.None? {
        StepKeeps(st, step);
      }
      st := Apply(st, step);
    }

    /** One operation that may fail; a failure ends the call and drops the lock. */
    method Attempt(step: Step, faulty: bool) returns (ok: bool)
      requires Valid() && Covered(st, step) && IsMover(step) && !step.Begin? && !st.run.phase.Idle?
      modifies `st
      ensures Valid()
      ensures ok ==> st == Apply(old(st), step)
      ensures !ok ==> faulty && st == Apply(old(st), Abort)
    {
      if faulty {
        if * {
          Do(Abort);
          return false;
        }
      }
      Do(step);
      return true;
    }

    /** The machine's invariant holds of the current state. */
    lemma KnowInvariant()
      requires Valid() && left.None?
      ensures Inv(st)
    {
    }

    /** `copy_file_verified`: copy, compare checksums, sync; a mismatch removes the bad copy, if it can be
        removed. */
    method CopyFileVerified(faulty: bool, ghost s0: State, ghost to: Path, ghost auditId: string)
        returns (r: Result<(), Failure>)
      requires Valid() && left.None? && FreshId(s0, auditId) && Copies(s0, st, to, auditId, 0)
      modifies `st
      ensures Valid()
      ensures r.Err? ==> faulty && Unmoved(s0, st, to) && (r.error == Io || r.error == Mismatched)
      ensures OnlyTouched(old(st).fs, st.fs, FileAtHand(old(st)))
      ensures r.Ok? ==> CopiedOne(s0, old(st), st, to, auditId) && CopiedButFor(st, LeftAfter(old(st)))
    {
      var ok := WriteCopy(faulty, s0, to, auditId);
      if !ok { return Err(Io); }
      r := CompareAndSync(faulty, s0, to, auditId);
    }

    method CompareAndSync(faulty: bool, ghost s0: State, ghost to: Path, ghost auditId: string)
        returns (r: Result<(), Failure>)
      requires Valid() && left.None? && FreshId(s0, auditId) && Copies(s0, st, to, auditId, 2)
      modifies `st
      ensures Valid()
      ensures r.Err? ==> faulty && Unmoved(s0, st, to) && (r.error == Io || r.error == Mismatched)
      ensures OnlyTouched(old(st).fs, st.fs, FileAtHand(old(st)))
      ensures r == Err(Mismatched) ==>
        Now(st.fs, FileAtHand(old(st))) in {None, Now(old(st).fs, FileAtHand(old(st)))}
      ensures r.Ok? ==> CopiedOne(s0, old(st), st, to, auditId) && CopiedButFor(st, LeftAfter(old(st)))
    {
      if faulty {
        if * {
          MismatchGivesUp(s0, st, to, auditId);
          AbortGivesUp(s0, st, to);
          if * { Do(Mismatch); } else { Do(Abort); }
          return Err(Mismatched);
        }
      }
      var ok := CopyStage(2, faulty, s0, to, auditId);
      if !ok { return Err(Io); }
      CopiesAreDurable(st);
      return Ok(());
    }

    /** `fs::copy`. */
    method WriteCopy(faulty: bool, ghost s0: State, ghost to: Path, ghost auditId: string) returns (ok: bool)
      requires Valid() && left.None? && FreshId(s0, auditId) && Copies(s0, st, to, auditId, 0)
      modifies `st
      ensures Valid()
      ensures !ok ==> faulty && Unmoved(s0, st, to)
      ensures ok ==> Copies(s0, st, to, auditId, 2) && SameCopy(old(st), st) && FileAtHand(st) == FileAtHand(old(st))
      ensures OnlyTouched(old(st).fs, st.fs, FileAtHand(old(st)))
    {
      ok := CopyStage(0, faulty, s0, to, auditId);
      if !ok { return; }
      ok := CopyStage(1, faulty, s0, to, auditId);
    }

    method CopyStage(stage: nat, faulty: bool, ghost s0: State, ghost to: Path, ghost auditId: string)
        returns (ok: bool)
      requires Valid() && left.None? && FreshId(s0, auditId) && Copies(s0, st, to, auditId, stage) && stage <= 2
      modifies `st
      ensures Valid()
      ensures !ok ==> faulty && Unmoved(s0, st, to)
      ensures ok && stage < 2 ==> Copies(s0, st, to, auditId, stage + 1) && SameCopy(old(st), st)
      ensures ok && stage < 2 ==> FileAtHand(st) == FileAtHand(old(st))
      ensures ok && stage == 2 ==> CopiedOne(s0, old(st), st, to, auditId)
      ensures OnlyTouched(old(st).fs, st.fs, FileAtHand(old(st)))
    {
      CopyStageNext(s0, st, to, auditId, stage);
      AbortGivesUp(s0, st, to);
      ok := Attempt(Next, faulty);
    }

    /** Remove this move's own earlier copy from the target's final name. */
    method CleanTarget(faulty: bool, ghost s0: State, ghost to: Path, ghost auditId: string) returns (ok: bool)
      requires Valid() && left.None? && Starting(s0, st, to, auditId)
      modifies `st
      ensures Valid()
      ensures !ok ==> faulty && Unmoved(s0, st, to)
      ensures ok ==> Starting(s0, st, to, auditId) && st.run.phase.Locking?
      ensures ok && old(st).run.phase == Cleaning(Main) ==> forall part :: Now(st.fs, DbFile(to, part)).None?
    {
      ok := true;
      ghost var cleaning := st.run.phase == Cleaning(Main);
      while st.run.phase.Cleaning?
        invariant Valid() && Starting(s0, st, to, auditId) && (cleaning ==> CleanedUpTo(st))
        decreases CleaningLeft(st.run.phase)
      {
        CleanStep(s0, st, to, auditId);
        AbortGivesUp(s0, st, to);
        if cleaning { CleaningGoesOn(st); }
        ok := Attempt(Next, faulty);
        if !ok { return; }
      }
    }

    /** `lock_and_quiesce_source`: refused while any other handle has the database open. */
    method LockAndQuiesceSource(faulty: bool, ghost s0: State, ghost to: Path, ghost auditId: string)
        returns (r: Result<(), Failure>)
      requires Valid() && left.None? && Prepared0(s0, to, auditId) && Starting(s0, st, to, auditId)
      requires st.run.phase.Locking?
      modifies `st
      ensures Valid()
      ensures r.Err? ==> Unmoved(s0, st, to)
      ensures r.Ok? ==> Unopened(s0) && Working0(s0, st, to, auditId) && st.run.phase == CopyingDb(0)
      ensures Unopened(s0) && !faulty ==> r.Ok?
      ensures !Unopened(s0) ==> r == Err(Busy)
      ensures r.Err? ==> !r.error.Refused?
    {
      AbortGivesUp(s0, st, to);
      if st.run.from in st.conns.Values {
        Do(Abort);
        return Err(Busy);
      }
      LockIsFree(st, s0);
      LockStep(s0, st, to, auditId);
      var ok := Attempt(Next, faulty);
      return if ok then Ok(()) else Err(Io);
    }

    /** The state is one the machine reaches: the lock is free and the source is readable. */
    lemma LockIsFree(s: State, s0: State)
      requires Valid() && left.None? && s == st && s.run.phase.Locking? && Inv(s0)
      ensures s.lock.None? && ContentOf(s0.fs, Resolve(s0)).Some?
    {
      KnowInvariant();
      InvIsSafe(s0);
    }

    /** The documents store, file by file. */
    method CopyDocuments(faulty: bool, ghost s0: State, ghost to: Path, ghost auditId: string) returns (ok: bool)
      requires Valid() && left.None? && FreshId(s0, auditId) && Walking(s0, st, to, auditId)
      modifies `st
      ensures Valid()
      ensures !ok ==> faulty && Unmoved(s0, st, to)
      ensures ok ==> Walking(s0, st, to, auditId) && st.run.phase.todo == {} && CopiedButFor(st, {})
    {
      ok := true;
      while st.run.phase.todo != {}
        invariant Valid() && Walking(s0, st, to, auditId) && ok
        decreases |st.run.phase.todo|
      {
        ok := CopyOneDocument(faulty, s0, to, auditId);
        if !ok { return; }
      }
      CopiesAreDurable(st);
    }

    method CopyOneDocument(faulty: bool, ghost s0: State, ghost to: Path, ghost auditId: string) returns (ok: bool)
      requires Valid() && left.None? && FreshId(s0, auditId) && Walking(s0, st, to, auditId) && st.run.phase.todo != {}
      modifies `st
      ensures Valid()
      ensures !ok ==> faulty && Unmoved(s0, st, to)
      ensures ok ==> Walking(s0, st, to, auditId) && |st.run.phase.todo| < |old(st).run.phase.todo|
    {
      var rel := TakeOne(s0, to, auditId);
      var copied := CopyFileVerified(faulty, s0, to, auditId);
      ok := copied.Ok?;
    }

    method TakeOne(ghost s0: State, ghost to: Path, ghost auditId: string) returns (rel: Path)
      requires Valid() && left.None? && Walking(s0, st, to, auditId) && st.run.phase.todo != {}
      modifies `st
      ensures Valid() && Copies(s0, st, to, auditId, 0)
      ensures |LeftAfter(st)| < |old(st).run.phase.todo|
    {
      rel :| rel in st.run.phase.todo;
      TakeDocStep(s0, st, to, auditId, rel);
      assert |st.run.phase.todo - {rel}| < |st.run.phase.todo|;
      Do(TakeDoc(rel));
    }

    /** The rewriting loop: one stored path at a time. */
    method RewritePaths(faulty: bool, ghost s0: State, ghost to: Path, ghost auditId: string) returns (ok: bool)
      requires Valid() && left.None? && FreshId(s0, auditId) && Localising(s0, st, to, auditId)
      requires st.run.phase.Rewriting?
      modifies `st
      ensures Valid()
      ensures !ok ==> faulty && Unmoved(s0, st, to)
      ensures ok ==> Localising(s0, st, to, auditId) && st.run.phase == Rewriting({}) && AllRepointed(st)
    {
      ok := true;
      while st.run.phase.left != {}
        invariant Valid() && Localising(s0, st, to, auditId) && st.run.phase.Rewriting? && ok
        decreases |st.run.phase.left|
      {
        ok := RewriteOnePath(faulty, s0, to, auditId);
        if !ok { return; }
      }
      RowsAreRepointed(st);
    }

    method RewriteOnePath(faulty: bool, ghost s0: State, ghost to: Path, ghost auditId: string) returns (ok: bool)
      requires Valid() && left.None? && FreshId(s0, auditId) && Localising(s0, st, to, auditId)
      requires st.run.phase.Rewriting? && st.run.phase.left != {}
      modifies `st
      ensures Valid()
      ensures !ok ==> faulty && Unmoved(s0, st, to)
      ensures ok ==> Localising(s0, st, to, auditId) && st.run.phase.Rewriting?
      ensures ok ==> |st.run.phase.left| < |old(st).run.phase.left|
    {
      var k :| k in st.run.phase.left;
      RowIsThere(st, k);
      RowStep(s0, st, to, auditId, k);
      AbortGivesUp(s0, st, to);
      assert |st.run.phase.left - {k}| < |st.run.phase.left|;
      ok := Attempt(TakeRow(k), faulty);
    }

    /** `check_and_localize_copy`: open the copy, re-point the store paths, record the move in
        the copy's own audit log, close. */
    method CheckAndLocalizeCopy(faulty: bool, ghost s0: State, ghost to: Path, auditId: string) returns (ok: bool)
      requires Valid() && left.None? && FreshId(s0, auditId) && Walking(s0, st, to, auditId) && st.run.phase.todo == {}
      modifies this
      ensures Valid() && (left.Some? ==> ok && faulty)
      ensures !ok ==> faulty && Unmoved(s0, st, to)
      ensures ok ==> ClosedAs(left, s0, st, to, auditId)
      ensures ok && left.None? ==> CopyIsClosed(st)
    {
      ok := OpenAndCheck(faulty, s0, to, auditId);
      if !ok { return; }
      ok := RewritePaths(faulty, s0, to, auditId);
      if !ok { return; }
      ok := RecordAndClose(faulty, s0, to, auditId);
      if ok && left.None? { ClosedFacts(st); }
    }

    /** `Db::open` on the copy, and the integrity check. */
    method OpenAndCheck(faulty: bool, ghost s0: State, ghost to: Path, ghost auditId: string) returns (ok: bool)
      requires Valid() && left.None? && Walking(s0, st, to, auditId) && st.run.phase.todo == {}
      modifies `st
      ensures Valid()
      ensures !ok ==> faulty && Unmoved(s0, st, to)
      ensures ok ==> Localising(s0, st, to, auditId) && st.run.phase.Rewriting?
    {
      KnowInvariant();
      OpenStep(s0, st, to, auditId);
      AbortGivesUp(s0, st, to);
      ok := Attempt(Next, faulty);
    }

    method RecordAndClose(faulty: bool, ghost s0: State, ghost to: Path, auditId: string) returns (ok: bool)
      requires Valid() && left.None? && Localising(s0, st, to, auditId) && st.run.phase == Rewriting({})
      modifies this
      ensures Valid() && (left.Some? ==> ok && faulty)
      ensures !ok ==> faulty && Unmoved(s0, st, to)
      ensures ok ==> ClosedAs(left, s0, st, to, auditId)
    {
      ok := RecordTheMove(faulty, s0, to, auditId);
      if !ok { return; }
      Close(faulty, s0, to, auditId);
    }

    /** The audit row, in the copy's own log. */
    method RecordTheMove(faulty: bool, ghost s0: State, ghost to: Path, auditId: string) returns (ok: bool)
      requires Valid() && left.None? && Localising(s0, st, to, auditId) && st.run.phase == Rewriting({})
      modifies `st
      ensures Valid()
      ensures !ok ==> faulty && Unmoved(s0, st, to)
      ensures ok ==> Recorded(s0, st, to, auditId) && st.run.phase == Closing
    {
      RowsDoneStep(s0, st, to, auditId);
      Do(Next);
      RecordStep(s0, st, to, auditId);
      AbortGivesUp(s0, st, to);
      ok := Attempt(Record(auditId), faulty);
    }

    /** The connection on the copy is dropped: its log is folded in and removed, or, if that fails, stays
        beside a main file that has all, some or none of it. Nothing reports which. */
    method Close(faulty: bool, ghost s0: State, ghost to: Path, ghost auditId: string)
      requires Valid() && left.None? && Recorded(s0, st, to, auditId) && st.run.phase == Closing
      modifies this
      ensures Valid() && (left.Some? ==> faulty) && ClosedAs(left, s0, st, to, auditId)
    {
      var main := NotFolded(faulty);
      if main.Some? {
        FailToFold(main.value, s0, to, auditId);
      } else {
        FoldTheLog(s0, to, auditId);
      }
    }

    method FoldTheLog(ghost s0: State, ghost to: Path, ghost auditId: string)
      requires Valid() && left.None? && Recorded(s0, st, to, auditId) && st.run.phase == Closing
      modifies `st
      ensures Valid() && ClosedAs(left, s0, st, to, auditId)
    {
      KnowInvariant();
      FoldedClosed(s0, st, to, auditId);
      Fold(s0, to, auditId);
    }

    method FailToFold(main: Content, ghost s0: State, ghost to: Path, ghost auditId: string)
      requires Valid() && left.None? && Recorded(s0, st, to, auditId) && Enabled(st, LeaveLog(main))
      modifies this
      ensures left == Some(main) && ClosedAs(left, s0, st, to, auditId)
    {
      KnowInvariant();
      LeftClosed(s0, st, to, auditId, main);
      Leave(main, s0, to, auditId);
    }

    /** The log stays; the main file has `main` in it. */
    method Leave(main: Content, ghost s0: State, ghost to: Path, ghost auditId: string)
      requires Enabled(st, LeaveLog(main)) && ClosedAs(Some(main), s0, Apply(st, LeaveLog(main)), to, auditId)
      modifies this
      ensures left == Some(main) && st == Apply(old(st), LeaveLog(main)) && ClosedAs(left, s0, st, to, auditId)
    {
      left, st := Some(main), Apply(st, LeaveLog(main));
    }

    method Fold(ghost s0: State, ghost to: Path, ghost auditId: string)
      requires Valid() && left.None? && Covered(st, Next) && ClosedAs(None, s0, Apply(st, Next), to, auditId)
      modifies `st
      ensures Valid() && ClosedAs(left, s0, st, to, auditId)
    {
      Do(Next);
    }

    /** The checkpoint at the close may fail, and leave any part of the log unfolded. */
    method NotFolded(faulty: bool) returns (main: Option<Content>)
      requires Valid() && left.None? && st.run.phase == Closing
      ensures main.Some? ==> faulty && Enabled(st, LeaveLog(main.value))
    {
      KnowInvariant();
      CanClose(st);
      if faulty {
        var file: Content := *;
        if MayLeave(Now(st.fs, Partial(st.run.to, Main)).value.db, LogOver(Now(st.fs, Partial(st.run.to, Wal))), file) {
          return Some(file);
        }
      }
      return None;
    }

    /** `prepare_copy`: validate the target and produce a verified, localised copy there. */
    method PrepareCopy(to: Path, auditId: string, faulty: bool) returns (r: Result<(), Failure>)
      requires Valid() && left.None? && Prepared0(st, to, auditId)
      modifies this
      ensures Valid() && (left.Some? ==> r.Ok? && faulty)
      ensures r.Ok? ==> ClosedAs(left, old(st), st, to, auditId)
      ensures r.Err? ==> Unmoved(old(st), st, to)
      ensures Validate(old(st).fs, Resolve(old(st)), to).Some? ==>
        r == Err(Refused(Validate(old(st).fs, Resolve(old(st)), to).value)) && st == old(st)
      ensures r != Err(Refused(NothingToMove))
      ensures r == Err(Refused(SameFolder)) <==> to == Resolve(old(st))
      ensures r == Err(Refused(InsideCurrent)) <==> Resolve(old(st)) < to
      ensures r == Err(Refused(TargetHasDatabase)) <==>
        !(Resolve(old(st)) <= to) && Unvouched(old(st).fs, Resolve(old(st)), to)
      ensures Validate(old(st).fs, Resolve(old(st)), to).None? && !Unopened(old(st)) && !faulty ==> r == Err(Busy)
      ensures Validate(old(st).fs, Resolve(old(st)), to).None? && Unopened(old(st)) && !faulty ==> r.Ok?
      ensures r.Ok? ==> Validate(old(st).fs, Resolve(old(st)), to).None? && Unopened(old(st))
    {
      ghost var s0 := st;
      SourceIsThere(st, to, auditId);
      RefusalsExactly(st.fs, Resolve(st), to);
      var refusal := Validate(st.fs, Resolve(st), to);
      if refusal.Some? {
        return Err(Refused(refusal.value));
      }
      BeginStarts(st, to, auditId);
      Do(Begin(to));
      var ok := CleanTarget(faulty, s0, to, auditId);
      if !ok { return Err(Io); }
      r := LockAndQuiesceSource(faulty, s0, to, auditId);
      if r.Err? { return; }
      ok := CopyEverything(faulty, s0, to, auditId);
      r := if ok then Ok(()) else Err(Io);
    }

    method CopyEverything(faulty: bool, ghost s0: State, ghost to: Path, auditId: string) returns (ok: bool)
      requires Valid() && left.None? && FreshId(s0, auditId) && Working0(s0, st, to, auditId)
      requires st.run.phase == CopyingDb(0)
      modifies this
      ensures Valid() && (left.Some? ==> ok && faulty)
      ensures !ok ==> faulty && Unmoved(s0, st, to)
      ensures ok ==> ClosedAs(left, s0, st, to, auditId)
    {
      var copied := CopyFileVerified(faulty, s0, to, auditId);
      if copied.Err? { return false; }
      ok := CopyDocuments(faulty, s0, to, auditId);
      if !ok { return; }
      ok := CheckAndLocalizeCopy(faulty, s0, to, auditId);
    }

    // ----- the commit window -----

    method CommitStep(faulty: bool, ghost s0: State, ghost to: Path, ghost auditId: string, ghost c: Content)
        returns (ok: bool)
      requires Valid() && Sealed(s0, st, to, auditId, c) && Committing(st.run.phase)
      modifies `st
      ensures Valid()
      ensures !ok ==> faulty && Unmoved(s0, st, to)
      ensures ok ==> Sealed(s0, st, to, auditId, c) && st.run.phase == Following(old(st).run.phase)
    {
      CommitWindowStep(s0, st, to, auditId, c);
      AbortGivesUp(s0, st, to);
      ok := Attempt(Next, faulty);
    }

    /** Create a config file and write its bytes; both files of the window start so. */
    method CreateAndWrite(faulty: bool, ghost s0: State, ghost to: Path, ghost auditId: string, ghost c: Content)
        returns (ok: bool)
      requires Valid() && Sealed(s0, st, to, auditId, c)
      requires Committing(st.run.phase) && Committing(Following(st.run.phase))
      modifies `st
      ensures Valid()
      ensures !ok ==> faulty && Unmoved(s0, st, to)
      ensures ok ==> Sealed(s0, st, to, auditId, c) && st.run.phase == Following(Following(old(st).run.phase))
    {
      ok := CommitStep(faulty, s0, to, auditId, c);
      if !ok { return; }
      ok := CommitStep(faulty, s0, to, auditId, c);
    }

    /** `write_move_journal`: create, write, sync the file, sync the config directory. */
    method WriteMoveJournal(faulty: bool, ghost s0: State, ghost to: Path, ghost auditId: string, ghost c: Content)
        returns (ok: bool)
      requires Valid() && Sealed(s0, st, to, auditId, c) && st.run.phase == Journaling(0)
      modifies `st
      ensures Valid()
      ensures !ok ==> faulty && Unmoved(s0, st, to)
      ensures ok ==> Sealed(s0, st, to, auditId, c) && st.run.phase == Finalising
      ensures ok && left.None? ==> Holds(st.fs, Journal, OwnJournal(st)) && Now(st.fs, DbFile(st.run.to, Main)).None?
    {
      ok := WriteJournalFile(faulty, s0, to, auditId, c);
      if !ok { return; }
      ok := CommitStep(faulty, s0, to, auditId, c);
      if ok && left.None? { JournalIsDurable(st); }
    }

    method WriteJournalFile(faulty: bool, ghost s0: State, ghost to: Path, ghost auditId: string, ghost c: Content)
        returns (ok: bool)
      requires Valid() && Sealed(s0, st, to, auditId, c) && st.run.phase == Journaling(0)
      modifies `st
      ensures Valid()
      ensures !ok ==> faulty && Unmoved(s0, st, to)
      ensures ok ==> Sealed(s0, st, to, auditId, c) && st.run.phase == Journaling(3)
    {
      ok := CreateAndWrite(faulty, s0, to, auditId, c);
      if !ok { return; }
      ok := CommitStep(faulty, s0, to, auditId, c);
    }

    /** `begin_commit`: journal first, then the final name, then sync the target directory. */
    method BeginCommit(faulty: bool, ghost s0: State, ghost to: Path, ghost auditId: string, ghost c: Content)
        returns (ok: bool)
      requires Valid() && Sealed(s0, st, to, auditId, c) && st.run.phase == Journaling(0)
      modifies `st
      ensures Valid()
      ensures !ok ==> faulty && Unmoved(s0, st, to)
      ensures ok ==> Sealed(s0, st, to, auditId, c) && st.run.phase == WritingTmp(0)
      ensures ok && left.None? ==> HasArrived(st)
    {
      ok := WriteMoveJournal(faulty, s0, to, auditId, c);
      if !ok { return; }
      ok := TakeFinalName(faulty, s0, to, auditId, c);
      if ok && left.None? { ArrivalIsDurable(st); }
    }

    method TakeFinalName(faulty: bool, ghost s0: State, ghost to: Path, ghost auditId: string, ghost c: Content)
        returns (ok: bool)
      requires Valid() && Sealed(s0, st, to, auditId, c) && st.run.phase == Finalising
      modifies `st
      ensures Valid()
      ensures !ok ==> faulty && Unmoved(s0, st, to)
      ensures ok ==> Sealed(s0, st, to, auditId, c) && st.run.phase == WritingTmp(0)
    {
      ok := CommitStep(faulty, s0, to, auditId, c);
      if !ok { return; }
      ok := CommitStep(faulty, s0, to, auditId, c);
    }

    /** `write_pointer`: temporary file, sync, rename, sync the config directory. */
    method WritePointer(faulty: bool, ghost s0: State, ghost to: Path, ghost auditId: string, ghost c: Content)
        returns (ok: bool)
      requires Valid() && Sealed(s0, st, to, auditId, c) && st.run.phase == WritingTmp(0)
      modifies `st
      ensures Valid()
      ensures !ok ==> faulty && (Unmoved(s0, st, to) || Stranded(s0, st, to, auditId, c))
      ensures ok ==> Switched(s0, st, to, auditId, c) && st.run.phase == ReadingBack
      ensures ok && left.None? ==> Options(st) == {to}
    {
      ok := WriteTmpFile(faulty, s0, to, auditId, c);
      if !ok { return; }
      ok := SwapPointerFile(faulty, s0, to, auditId, c);
    }

    method WriteTmpFile(faulty: bool, ghost s0: State, ghost to: Path, ghost auditId: string, ghost c: Content)
        returns (ok: bool)
      requires Valid() && Sealed(s0, st, to, auditId, c) && st.run.phase == WritingTmp(0)
      modifies `st
      ensures Valid()
      ensures !ok ==> faulty && Unmoved(s0, st, to)
      ensures ok ==> Sealed(s0, st, to, auditId, c) && st.run.phase == Swapping
    {
      ok := CreateAndWrite(faulty, s0, to, auditId, c);
      if !ok { return; }
      ok := CommitStep(faulty, s0, to, auditId, c);
    }

    method SwapPointerFile(faulty: bool, ghost s0: State, ghost to: Path, ghost auditId: string, ghost c: Content)
        returns (ok: bool)
      requires Valid() && Sealed(s0, st, to, auditId, c) && st.run.phase == Swapping
      modifies `st
      ensures Valid()
      ensures !ok ==> faulty && (Unmoved(s0, st, to) || Stranded(s0, st, to, auditId, c))
      ensures ok ==> Switched(s0, st, to, auditId, c) && st.run.phase == ReadingBack
      ensures ok && left.None? ==> Options(st) == {to}
    {
      SwapStep(s0, st, to, auditId, c);
      SwappingGivesUp(s0, st, to, auditId, c);
      ok := Attempt(Next, faulty);
      if !ok { return; }
      SyncConfigStep(s0, st, to, auditId, c);
      AbortAfterSwap(s0, st, to, auditId, c);
      ok := Attempt(Next, faulty);
      if ok && left.None? { SwapIsDurable(st); }
    }

    // ----- after the swap -----

    /** Remove the old database files; a failed removal is reported, not fatal. */
    method RemoveOldDatabase(faulty: bool, ghost s0: State, ghost to: Path, ghost auditId: string, ghost c: Content)
      requires Valid() && Removing(s0, st, to, auditId, c) && st.run.phase == Deleting(Main)
      modifies `st
      ensures Valid()
      ensures OnlyOldRemoved(old(st).fs, st.fs, Resolve(s0))
      ensures Removing(s0, st, to, auditId, c) && st.run.phase.DeletingDocs?
      ensures !faulty ==> st.run.oldRemoved == old(st).run.oldRemoved
    {
      ghost var one := st.fs;
      RemovePart(Main, faulty, s0, to, auditId, c);
      ghost var two := st.fs;
      RemovePart(Wal, faulty, s0, to, auditId, c);
      RemovedAlong(one, two, st.fs, Resolve(s0));
      two := st.fs;
      RemovePart(Shm, faulty, s0, to, auditId, c);
      RemovedAlong(one, two, st.fs, Resolve(s0));
    }

    method RemovePart(
        part: DbPart, faulty: bool, ghost s0: State, ghost to: Path, ghost auditId: string, ghost c: Content)
      requires Valid() && Removing(s0, st, to, auditId, c) && st.run.phase == Deleting(part)
      modifies `st
      ensures Valid()
      ensures OnlyOldRemoved(old(st).fs, st.fs, Resolve(s0))
      ensures Removing(s0, st, to, auditId, c)
      ensures st.run.phase == (match part case Main => Deleting(Wal) case Wal => Deleting(Shm) case Shm => st.run.phase)
      ensures part == Shm ==> st.run.phase.DeletingDocs?
      ensures !faulty ==> st.run.oldRemoved == old(st).run.oldRemoved
    {
      if faulty {
        if * {
          SkipStep(s0, st, to, auditId, c);
          Do(Skip);
          return;
        }
      }
      RemovePartStep(s0, st, to, auditId, c, part);
      KeepsReport(st, Next);
      Do(Next);
    }

    /** Remove the old documents store; the first failure ends it. */
    method RemoveOldDocuments(faulty: bool, ghost s0: State, ghost to: Path, ghost auditId: string, ghost c: Content)
      requires Valid() && Removing(s0, st, to, auditId, c) && st.run.phase.DeletingDocs?
      modifies `st
      ensures Valid()
      ensures OnlyDocsRemoved(old(st).fs, st.fs, Resolve(s0))
      ensures Removing(s0, st, to, auditId, c) && st.run.phase == DeletingJournal
      ensures !faulty ==> st.run.oldRemoved == old(st).run.oldRemoved
    {
      ghost var a := st.fs;
      while st.run.phase.todo != {}
        invariant Valid() && Removing(s0, st, to, auditId, c) && st.run.phase.DeletingDocs?
        invariant OnlyDocsRemoved(a, st.fs, Resolve(s0))
        invariant !faulty ==> st.run.oldRemoved == old(st).run.oldRemoved
        decreases |st.run.phase.todo|
      {
        if faulty {
          if * {
            SkipStep(s0, st, to, auditId, c);
            Do(Skip);
            return;
          }
        }
        RemoveOneDocument(s0, to, auditId, c);
      }
      DocsDoneStep(s0, st, to, auditId, c);
      KeepsReport(st, Next);
      Do(Next);
    }

    method RemoveOneDocument(ghost s0: State, ghost to: Path, ghost auditId: string, ghost c: Content)
      requires Valid() && Removing(s0, st, to, auditId, c) && st.run.phase.DeletingDocs? && st.run.phase.todo != {}
      modifies `st
      ensures Valid() && Removing(s0, st, to, auditId, c) && st.run.phase.DeletingDocs?
      ensures OnlyDocsRemoved(old(st).fs, st.fs, Resolve(s0))
      ensures |st.run.phase.todo| < |old(st).run.phase.todo| && st.run.oldRemoved == old(st).run.oldRemoved
    {
      var rel :| rel in st.run.phase.todo;
      RemoveDocStep(s0, st, to, auditId, c, rel);
      KeepsReport(st, TakeDoc(rel));
      Do(TakeDoc(rel));
    }

    /** Drop the journal, best effort. */
    method RemoveJournal(faulty: bool, ghost s0: State, ghost to: Path, ghost auditId: string, ghost c: Content)
      requires Valid() && Removing(s0, st, to, auditId, c) && st.run.phase == DeletingJournal
      modifies `st
      ensures Valid()
      ensures OnlyOldRemoved(old(st).fs, st.fs, Resolve(s0))
      ensures Removing(s0, st, to, auditId, c) && st.run.phase.Idle?
      ensures !faulty ==> st.run.oldRemoved == old(st).run.oldRemoved && Now(st.fs, Journal).None?
    {
      if faulty {
        if * {
          SkipStep(s0, st, to, auditId, c);
          Do(Skip);
          return;
        }
      }
      RemoveJournalStep(s0, st, to, auditId, c);
      KeepsReport(st, Next);
      Do(Next);
    }

    /** Remove everything the old folder held, then the journal. */
    method RemoveOldCopy(faulty: bool, ghost s0: State, ghost to: Path, ghost auditId: string, ghost c: Content)
      requires Valid() && Removing(s0, st, to, auditId, c) && st.run.phase == Deleting(Main)
      modifies `st
      ensures Valid()
      ensures Removing(s0, st, to, auditId, c) && st.run.phase.Idle?
      ensures !faulty ==> st.run.oldRemoved == old(st).run.oldRemoved && Now(st.fs, Journal).None?
    {
      RemoveOldDatabase(faulty, s0, to, auditId, c);
      RemoveOldDocuments(faulty, s0, to, auditId, c);
      RemoveJournal(faulty, s0, to, auditId, c);
    }

    /** Resolve again; once that lands on the new folder, drop the lock. */
    method ReadBack(faulty: bool, ghost s0: State, ghost to: Path, ghost auditId: string, ghost c: Content)
        returns (ok: bool)
      requires Valid() && Switched(s0, st, to, auditId, c) && st.run.phase == ReadingBack
      modifies `st
      ensures Valid()
      ensures !ok ==> faulty && Stranded(s0, st, to, auditId, c)
      ensures ok ==> Removing(s0, st, to, auditId, c) && st.run.phase == Deleting(Main) && st.run.oldRemoved
    {
      ReadBackStep(s0, st, to, auditId, c);
      AbortAfterSwap(s0, st, to, auditId, c);
      ok := Attempt(Next, faulty);
      if ok {
        RemovalBegins(s0, st, to, auditId, c);
      }
    }

    /** `commit_move`: final name, pointer swap, read-back, unlock, and only then deletion. */
    method CommitMove(to: Path, faulty: bool, ghost s0: State, ghost auditId: string, ghost c: Content)
        returns (r: Result<Report, Failure>)
      requires Valid() && Sealed(s0, st, to, auditId, c) && st.run.phase == Journaling(0)
      modifies `st
      ensures Valid()
      ensures r.Err? ==> faulty && (Unmoved(s0, st, to) || Stranded(s0, st, to, auditId, c))
      ensures r.Err? ==> !r.error.Refused?
      ensures r.Ok? ==> Delivered(s0, st, to, c, r.value)
      ensures !faulty ==> r.Ok? && r.value.oldRemoved && Now(st.fs, Journal).None?
    {
      var ok := BeginCommit(faulty, s0, to, auditId, c);
      if !ok { return Err(Io); }
      ok := WritePointer(faulty, s0, to, auditId, c);
      if !ok { return Err(Io); }
      ok := ReadBack(faulty, s0, to, auditId, c);
      if !ok { return Err(Io); }
      RemoveOldCopy(faulty, s0, to, auditId, c);
      RemovedIsDelivered(s0, st, to, auditId, c);
      return Ok(ReportOf(st));
    }

    /** `move_data_dir`. With no fault it succeeds exactly when the target is acceptable and
        nobody else has the database open, whatever an earlier interrupted move left behind; the
        new folder is then the localised image of the old folder's content at the call. With faults a
        success is that if and only if closing the copy left no log, or one that adds nothing. */
    method MoveDataDir(to: Path, auditId: string, faulty: bool) returns (r: Result<Report, Failure>)
      requires Valid() && left.None? && Prepared0(st, to, auditId)
      modifies this
      ensures Valid() && (left.Some? ==> faulty)
      ensures r.Ok? ==> Delivered(old(st), st, to, MainFile(left, old(st), to, auditId), r.value)
      ensures r.Ok? ==> (Completed(old(st), st, to, auditId, r.value) <==>
        left.None? || left.value == MovedImage(old(st), to, auditId))
      ensures r.Err? ==>
        Unmoved(old(st), st, to) || Stranded(old(st), st, to, auditId, MainFile(left, old(st), to, auditId))
      ensures Validate(old(st).fs, Resolve(old(st)), to).Some? ==>
        r == Err(Refused(Validate(old(st).fs, Resolve(old(st)), to).value)) && st == old(st)
      ensures r != Err(Refused(NothingToMove))
      ensures r == Err(Refused(SameFolder)) <==> to == Resolve(old(st))
      ensures r == Err(Refused(InsideCurrent)) <==> Resolve(old(st)) < to
      ensures r == Err(Refused(TargetHasDatabase)) <==>
        !(Resolve(old(st)) <= to) && Unvouched(old(st).fs, Resolve(old(st)), to)
      ensures !faulty ==> (r.Ok? <==> Validate(old(st).fs, Resolve(old(st)), to).None? && Unopened(old(st)))
      ensures !faulty && r.Ok? ==> r.value.oldRemoved && Now(st.fs, Journal).None?
    {
      r := PrepareAndCommit(to, auditId, faulty);
    }

    method PrepareAndCommit(to: Path, auditId: string, faulty: bool) returns (r: Result<Report, Failure>)
      requires Valid() && left.None? && Prepared0(st, to, auditId)
      modifies this
      ensures Valid() && (left.Some? ==> faulty) && Ends(left, old(st), st, to, auditId, r)
      ensures Validate(old(st).fs, Resolve(old(st)), to).Some? ==>
        r == Err(Refused(Validate(old(st).fs, Resolve(old(st)), to).value)) && st == old(st)
      ensures r != Err(Refused(NothingToMove))
      ensures r == Err(Refused(SameFolder)) <==> to == Resolve(old(st))
      ensures r == Err(Refused(InsideCurrent)) <==> Resolve(old(st)) < to
      ensures r == Err(Refused(TargetHasDatabase)) <==>
        !(Resolve(old(st)) <= to) && Unvouched(old(st).fs, Resolve(old(st)), to)
      ensures !faulty ==> (r.Ok? <==> Validate(old(st).fs, Resolve(old(st)), to).None? && Unopened(old(st)))
      ensures !faulty && r.Ok? ==> r.value.oldRemoved && Now(st.fs, Journal).None?
    {
      ghost var s0 := st;
      var prepared := PrepareCopy(to, auditId, faulty);
      if prepared.Err? {
        return Err(prepared.error);
      }
      r := CommitPrepared(to, faulty, s0, auditId);
    }

    /** Whatever the closed copy holds is what is delivered. */
    method CommitPrepared(to: Path, faulty: bool, ghost s0: State, ghost auditId: string)
        returns (r: Result<Report, Failure>)
      requires Valid() && ClosedAs(left, s0, st, to, auditId)
      modifies `st
      ensures Valid() && Ends(left, s0, st, to, auditId, r)
      ensures r.Err? ==> !r.error.Refused?
      ensures !faulty ==> r.Ok? && r.value.oldRemoved && Now(st.fs, Journal).None?
    {
      ghost var c := MainFile(left, s0, to, auditId);
      r := CommitMove(to, faulty, s0, auditId, c);
      if r.Ok? {
        DeliveredExactly(s0, st, to, auditId, c, r.value);
      }
    }

    /** A move dies before the swap; other processes open, work and close; then it is called again
        with the same target. Unless it died in the localising pass, the call succeeds exactly when
        nobody is left with the database open, and the new folder holds the localised image of the
        old one as it is at the call, the work done in between included. */
    method Resume(work: seq<Step>, auditId: string) returns (r: Result<Report, Failure>)
      requires Valid() && left.None? && BeforeSwap(st.run.phase) && FoldersApart(st) && !LogOpen(st)
      requires Unclaimed(Worked(Stopped(st), work), st.run.to, auditId)
      modifies this
      ensures Valid()
      ensures r.Ok? <==> Unopened(Worked(Stopped(old(st)), work))
      ensures r.Ok? ==> Completed(Worked(Stopped(old(st)), work), st, old(st).run.to, auditId, r.value)
    {
      var to := st.run.to;
      CrashedIsReady(work);
      Do(Abort);
      CarryOut(work);
      ReadyIsPrepared(st, to, auditId);
      r := MoveDataDir(to, auditId, false);
    }

    lemma CrashedIsReady(work: seq<Step>)
      requires Valid() && left.None? && BeforeSwap(st.run.phase) && FoldersApart(st) && !LogOpen(st)
      ensures Covered(st, Abort) && Apply(st, Abort) == Stopped(st) && Ready(Worked(Stopped(st), work), st.run.to)
    {
      KnowInvariant();
      CrashThenWorkIsReady(st, work);
    }

    /** Other processes at work while no move is under way. */
    method CarryOut(work: seq<Step>)
      requires Valid()
      modifies `st
      ensures Valid() && st == Worked(old(st), work)
    {
      var rest := work;
      while rest != []
        invariant Valid() && Worked(old(st), work) == Worked(st, rest)
        decreases |rest|
      {
        if Work(rest[0]) && WorldEnabled(st, rest[0]) {
          Do(rest[0]);
        }
        rest := rest[1..];
      }
    }
  }

  /** How a call begun in `s0` may end, if `left` is what the close of the copy left unfolded. */
  ghost predicate Ends(
    left: Option<Content>, s0: State, s: State, to: Path, auditId: string, r: Result<Report, Failure>)
  {
    match r
    case Ok(report) =>
      && Delivered(s0, s, to, MainFile(left, s0, to, auditId), report)
      && (Completed(s0, s, to, auditId, report) <==> left.None? || left.value == MovedImage(s0, to, auditId))
    case Err(_) => Unmoved(s0, s, to) || Stranded(s0, s, to, auditId, MainFile(left, s0, to, auditId))
  }

  /** The main file of a copy of the old folder's content at `s0`: localised, with the audit row. */
  function MovedImage(s0: State, to: Path, auditId: string): Content {
    match ContentOf(s0.fs, Resolve(s0))
    case Some(db) => Database(MovedCopy(db, Resolve(s0), to, auditId))
    case None => Torn
  }

  /** A completed move: the pointer file names the new folder; its database is the old content,
      localised, plus the move's audit row; every document of the old store is there with the
      same bytes; nothing outside the two folders has changed; the counts are exact; and if the
      report says the old copy is gone, it is. */
  ghost predicate Completed(s0: State, s: State, to: Path, auditId: string, report: Report) {
    Delivered(s0, s, to, MovedImage(s0, to, auditId), report)
  }

  /** The same, but for what the database is: what a main file with `c` in it reads as. */
  ghost predicate Delivered(s0: State, s: State, to: Path, c: Content, report: Report) {
    var from := Resolve(s0);
    && s.run.phase.Idle? && Resolve(s) == to && to != from
    && s.run.from == from
    && ContentOf(s0.fs, from).Some?
    && ContentOf(s.fs, to) == Recover(Some(c), None)
    && (forall rel :: rel in StoreOf(s0.fs, from) ==> Now(s.fs, Doc(to, rel)) == Some(StoreOf(s0.fs, from)[rel]))
    && OthersKept(s0.fs, s.fs, from, to)
    && report.from == from && report.to == to
    && report.filesCopied == 1 + |StoreOf(s0.fs, from)|
    && report.documentsRewritten == |StoreKeys(ContentOf(s0.fs, from).value, from)|
    && (report.oldRemoved ==> OldGone(s))
  }

  function ReportOf(s: State): Report {
    Report(s.run.from, s.run.to, s.run.copied, s.run.rewritten, s.run.oldRemoved)
  }

  lemma RemovedIsDelivered(s0: State, s: State, to: Path, auditId: string, c: Content)
    requires Removing(s0, s, to, auditId, c) && s.run.phase.Idle?
    ensures Delivered(s0, s, to, c, ReportOf(s))
  {
  }

  /** What the main file of the closed copy holds, for a call begun in `s0`. */
  function MainFile(left: Option<Content>, s0: State, to: Path, auditId: string): Content {
    if left.Some? then left.value else MovedImage(s0, to, auditId)
  }

  /** The copy is closed. Its log is gone, unless the close failed; then its main file is the whole copy
      if and only if the log adds nothing to it. */
  ghost predicate ClosedAs(left: Option<Content>, s0: State, s: State, to: Path, auditId: string) {
    && Sealed(s0, s, to, auditId, MainFile(left, s0, to, auditId)) && s.run.phase == Journaling(0)
    && (left.None? <==> BlankLog(Now(s.fs, Partial(to, Wal))))
    && (MainFile(left, s0, to, auditId) == MovedImage(s0, to, auditId) <==> left.None? || LogAddsNothing(s.fs, to))
  }

  lemma LeftClosed(s0: State, s: State, to: Path, auditId: string, main: Content)
    requires Inv(s) && Recorded(s0, s, to, auditId) && Enabled(s, LeaveLog(main))
    ensures ClosedAs(Some(main), s0, Apply(s, LeaveLog(main)), to, auditId)
  {
    LeaveStep(s0, s, to, auditId, main);
    PlannedImage(s0, s, to, auditId);
  }

  lemma FoldedClosed(s0: State, s: State, to: Path, auditId: string)
    requires Inv(s) && Recorded(s0, s, to, auditId) && s.run.phase == Closing
    ensures Covered(s, Next) && ClosedAs(None, s0, Apply(s, Next), to, auditId)
  {
    CloseStep(s0, s, to, auditId);
    PlannedImage(s0, s, to, auditId);
  }

  /** The copy a run works on is that of the content the call began with. */
  lemma PlannedImage(s0: State, s: State, to: Path, auditId: string)
    requires Recorded(s0, s, to, auditId)
    ensures Database(Copy(s)) == MovedImage(s0, to, auditId)
  {
  }

  /** What is delivered is the moved copy exactly when the main file was. */
  lemma DeliveredExactly(s0: State, s: State, to: Path, auditId: string, c: Content, report: Report)
    requires Delivered(s0, s, to, c, report)
    ensures Completed(s0, s, to, auditId, report) <==> c == MovedImage(s0, to, auditId)
  {
  }

  lemma SwappingGivesUp(s0: State, s: State, to: Path, auditId: string, c: Content)
    requires Sealed(s0, s, to, auditId, c) && s.run.phase == Swapping
    ensures Covered(s, Abort) && Unmoved(s0, Apply(s, Abort), to)
  {
  }

  lemma KeepsReport(s: State, step: Step)
    requires MoverEnabled(s, step) && (step.Next? || step.TakeDoc?)
    requires s.run.phase.Deleting? || s.run.phase.DeletingDocs? || s.run.phase.DeletingJournal?
    ensures Apply(s, step).run.oldRemoved == s.run.oldRemoved
  {
  }

  // ----- the same, path by path -----

  /** The file found at a path, among the files of the given folders and the config folder. */
  ghost function FileAt(s: State, dirs: set<Path>, p: Path): File {
    if exists id: FileId :: Belongs(id, dirs) && PathOf(id, s.config) == p then
      var id: FileId :| Belongs(id, dirs) && PathOf(id, s.config) == p;
      Now(s.fs, id)
    else None
  }

  /** Where no folder lies in another one's documents store, a path leads to one file only. */
  lemma FileAtItsPath(s: State, dirs: set<Path>, id: FileId)
    requires Placed(dirs, s.config) && Belongs(id, dirs)
    ensures FileAt(s, dirs, PathOf(id, s.config)) == Now(s.fs, id)
  {
    var other: FileId :| Belongs(other, dirs) && PathOf(other, s.config) == PathOf(id, s.config)
      && FileAt(s, dirs, PathOf(id, s.config)) == Now(s.fs, other);
    IdentityIsPath(dirs, s.config, id, other);
  }

  /** A completed move, as someone who looks at the folders by path finds it: the database of the new
      folder opens as the moved copy, every document lies under the same relative name with the same
      content, and the old folder's files are gone if the report says so. */
  lemma CompletedOnPaths(s0: State, s: State, to: Path, auditId: string, report: Report, rel: Path)
    requires Completed(s0, s, to, auditId, report) && Placed({Resolve(s0), to}, s.config) && rel != []
    ensures var from, dirs := Resolve(s0), {Resolve(s0), to};
      && Recover(FileAt(s, dirs, to + ["slipscan.db"]), FileAt(s, dirs, to + ["slipscan.db-wal"]))
         == Some(MovedCopy(ContentOf(s0.fs, from).value, from, to, auditId))
      && (rel in StoreOf(s0.fs, from) ==>
            FileAt(s, dirs, to + ["documents"] + rel) == Some(StoreOf(s0.fs, from)[rel]))
      && (report.oldRemoved ==>
            FileAt(s, dirs, from + ["slipscan.db"]).None? && FileAt(s, dirs, from + ["documents"] + rel).None?)
  {
    var from, dirs := Resolve(s0), {Resolve(s0), to};
    FileAtItsPath(s, dirs, DbFile(to, Main));
    FileAtItsPath(s, dirs, DbFile(to, Wal));
    FileAtItsPath(s, dirs, Doc(to, rel));
    FileAtItsPath(s, dirs, DbFile(from, Main));
    FileAtItsPath(s, dirs, Doc(from, rel));
    NamesOnDisk(from, rel, s.config);
    NamesOnDisk(to, rel, s.config);
  }

  /** The rows of the new folder's database, one by one. */
  lemma CompletedRowByRow(s0: State, s: State, to: Path, auditId: string, report: Report, k: Key, rel: Path)
    requires Completed(s0, s, to, auditId, report)
    ensures ContentOf(s0.fs, Resolve(s0)).Some? && ContentOf(s.fs, to).Some?
    ensures var from, was, now := Resolve(s0), ContentOf(s0.fs, Resolve(s0)).value, ContentOf(s.fs, to).value;
      && now.Keys == was.Keys + {MoveEntry(auditId)}
      && now[MoveEntry(auditId)] == Moved(from, to, |set j | j in was && UnderDocuments(was[j], from)|)
      && (k in was && k != MoveEntry(auditId) ==>
            && (was[k] == Location(from + ["documents"] + rel) ==> now[k] == Location(to + ["documents"] + rel))
            && (!UnderDocuments(was[k], from) ==> now[k] == was[k]))
  {
    MovedRowByRow(ContentOf(s0.fs, Resolve(s0)).value, Resolve(s0), to, auditId, k, rel);
  }
}
