/**
 When closing the copy fails: the move goes on with a main file that lacks what is still in the log,
 and the log stays behind under a name nobody will open. What that costs, and when it costs nothing.
 */
module MoveUnfolded {
  import opened Wrappers
  import opened Paths
  import opened Books
  import opened Disk
  import opened Move
  import opened MoveInvariant
  import opened MoveWorld
  import opened MoveFrames
  import opened MoveRuns
  import opened MoveForeign
  import opened MoveResume
  import opened MoveFiles
  import opened MoveHazards
  import opened MoveStale
  import opened MoveSteps

  /** The state a close leaves that could not fold the log into `main`. */
  function Left(s: State, main: Content): State {
    MoverRaw(s, LeaveLog(main))
  }

  /** It is none the invariant holds of: it is recognised by the log that stands beside the copy. */
  lemma LeftLogIsRecognised(s: State, main: Content)
    requires Inv(s) && MoverEnabled(s, LeaveLog(main))
    ensures !BlankLog(Now(Left(s, main).fs, Partial(s.run.to, Wal))) && !Inv(Left(s, main))
    ensures BlankLog(Now(MoverNext(s).fs, Partial(s.run.to, Wal)))
  {
    assert AtClosing(s);
    LeftFiles(s, Left(s, main), main);
    OutOfPhase(Left(s, main));
    ClosedFiles(s);
  }

  lemma OutOfPhase(s: State)
    requires s.run.phase == Journaling(0) && !AtJournaling(s, 0)
    ensures !Inv(s)
  {
  }

  lemma LeftFiles(s: State, s': State, main: Content)
    requires AtClosing(s) && s' == Goto(s, Write(s.fs, Partial(s.run.to, Main), main), Journaling(0))
    ensures !BlankLog(Now(s'.fs, Partial(s.run.to, Wal))) && !AtJournaling(s', 0) && s'.run.phase == Journaling(0)
  {
  }

  lemma ClosedFiles(s: State)
    requires AtClosing(s) && s.run.phase.Closing?
    ensures BlankLog(Now(MoverNext(s).fs, Partial(s.run.to, Wal)))
  {
    assert MoverNext(s) == Goto(s, CloseCopy(s.fs, s.run.to, Copy(s)), Journaling(0));
  }

  // ----- up to the swap -----

  /** How the run stands that goes on with `main`: up to the swap the old folder is the resolved one, and
      safe; just after it the new one is, and reads as `main`. */
  ghost predicate Adrift(s: State, main: Content) {
    if s.run.phase.SyncingConfig? then Resolve(s) == s.run.to && Landed(s, main)
    else
      && (Committing(s.run.phase) || s.run.phase.Swapping?) && Bears(s, main)
      && PointerWhole(s) && Resolve(s) == s.run.from && s.run.from != s.run.to && Safe(s)
  }

  lemma LeftIsAdrift(s: State, main: Content)
    requires Inv(s) && MoverEnabled(s, LeaveLog(main))
    ensures Adrift(Left(s, main), main)
    ensures Left(s, main).run.from == s.run.from && Left(s, main).run.to == s.run.to
    ensures Left(s, main).past == s.past
  {
    assert AtClosing(s);
    LeftBears(s, Left(s, main), main);
    InvIsSafe(s);
    OnlyPartialChanged(s, Left(s, main), main);
  }

  lemma OnlyPartialChanged(s: State, s': State, main: Content)
    requires Safe(s) && PointerWhole(s)
    requires s' == Goto(s, Write(s.fs, Partial(s.run.to, Main), main), Journaling(0))
    ensures Safe(s') && PointerWhole(s') && Resolve(s') == Resolve(s)
  {
    SafeWhenUntouched(s, s');
  }

  lemma SafeWhenUntouched(s: State, s': State)
    requires Safe(s) && Resolve(s') == Resolve(s)
    requires s'.past.books == s.past.books && s'.past.papers == s.past.papers
    requires NoWorse(s.fs, s'.fs, DbFile(Resolve(s), Main)) && NoWorse(s.fs, s'.fs, DbFile(Resolve(s), Wal))
    requires forall rel :: Now(s'.fs, Doc(Resolve(s), rel)) == Now(s.fs, Doc(Resolve(s), rel))
    ensures Safe(s')
  {
    NoWorseFile(s.fs, s'.fs, DbFile(Resolve(s), Main));
  }

  /** Every step up to the rename of the pointer leaves the old folder as it is. */
  lemma DriftsOn(s: State, main: Content)
    requires Adrift(s, main) && Committing(s.run.phase)
    ensures Adrift(MoverNext(s), main) && PlanKept(s, MoverNext(s))
  {
    BearsOn(s, main);
    FollowingPhase(s);
    NextPointerStays(s);
    NextKeepsPlan(s);
    OldFolderUntouched(s);
    SafeWhenUntouched(s, MoverNext(s));
    StillAdrift(s, MoverNext(s), main);
  }

  lemma StillAdrift(s: State, s': State, main: Content)
    requires Adrift(s, main) && Committing(s.run.phase) && s'.run.phase == Following(s.run.phase)
    requires Bears(s', main) && Safe(s') && Resolve(s') == Resolve(s) && OnDisk(s'.fs, Pointer) <= OnDisk(s.fs, Pointer)
    requires s'.run.from == s.run.from && s'.run.to == s.run.to
    ensures Adrift(s', main)
  {
  }

  lemma OldFolderUntouched(s: State)
    requires Committing(s.run.phase) && s.run.from != s.run.to
    ensures NoWorse(s.fs, MoverNext(s).fs, DbFile(s.run.from, Main))
    ensures NoWorse(s.fs, MoverNext(s).fs, DbFile(s.run.from, Wal))
    ensures forall rel :: Now(MoverNext(s).fs, Doc(s.run.from, rel)) == Now(s.fs, Doc(s.run.from, rel))
  {
    NextTouches(s);
    assert !Touches(s, DbFile(s.run.from, Main)) && !Touches(s, DbFile(s.run.from, Wal));
    forall rel
      ensures Now(MoverNext(s).fs, Doc(s.run.from, rel)) == Now(s.fs, Doc(s.run.from, rel))
    {
      assert !Touches(s, Doc(s.run.from, rel));
    }
  }

  // ----- the run as a whole -----

  lemma AdriftStep(s: State, main: Content, step: Step)
    requires Adrift(s, main) && !s.run.phase.SyncingConfig? && Forward(step) && MoverEnabled(s, step)
    ensures Adrift(MoverRaw(s, step), main)
    ensures MoverRaw(s, step).run.from == s.run.from && MoverRaw(s, step).run.to == s.run.to
    ensures MoverRaw(s, step).past.books == s.past.books
  {
    assert MoverRaw(s, step) == MoverNext(s);
    if s.run.phase.Swapping? {
      AdriftSwap(s, main);
    } else {
      DriftsOn(s, main);
    }
  }

  lemma AdriftSwap(s: State, main: Content)
    requires Bears(s, main) && s.run.phase.Swapping? && s.run.from != s.run.to
    ensures MoverNext(s) == Swap(s) && Resolve(Swap(s)) == s.run.to && Landed(Swap(s), main)
  {
    SwapApplied(s);
    SwapIsKept(s);
    BornAcross(s, main);
    SwapLands(s, Swap(s), main);
  }

  lemma SwapLands(s: State, s': State, main: Content)
    requires Landed(s, main) && s'.run == s.run.(phase := s'.run.phase)
    requires forall id :: id != Pointer && id != PointerTmp ==> Now(s'.fs, id) == Now(s.fs, id)
    ensures Landed(s', main)
  {
    LandedStays(s, s', main);
  }

  lemma {:induction false} AdriftAlong(states: seq<State>, steps: seq<Step>, n: nat, main: Content)
    requires ForwardRun(states, steps) && Adrift(states[0], main) && n < |states|
    ensures Adrift(states[n], main)
    ensures states[n].run.to == states[0].run.to && states[n].past.books == states[0].past.books
  {
    if n > 0 {
      AdriftAlong(states, steps, n - 1, main);
      AdriftStep(states[n - 1], main, steps[n - 1]);
    }
  }

  /** Until the swap nothing is lost: the old folder is resolved and says what it said. */
  lemma UnfoldedIsSafeUntilTheSwap(s: State, main: Content, states: seq<State>, steps: seq<Step>, n: nat)
    requires Inv(s) && MoverEnabled(s, LeaveLog(main))
    requires ForwardRun(states, steps) && states[0] == Left(s, main) && n < |steps|
    ensures Safe(states[n]) && Resolve(states[n]) == s.run.from
  {
    LeftIsAdrift(s, main);
    AdriftAlong(states, steps, n, main);
    StaysFrom(states, steps, n, main);
  }

  lemma {:induction false} StaysFrom(states: seq<State>, steps: seq<Step>, n: nat, main: Content)
    requires ForwardRun(states, steps) && Adrift(states[0], main) && n < |states|
    ensures states[n].run.from == states[0].run.from
  {
    if n > 0 {
      StaysFrom(states, steps, n - 1, main);
      AdriftAlong(states, steps, n - 1, main);
      AdriftStep(states[n - 1], main, steps[n - 1]);
    }
  }

  /** What a main file says by itself in the folder it was copied to. */
  function SaidBy(main: Content, to: Path): map<Key, Meaning> {
    if main.Database? then Said(main.db, to) else map[]
  }

  /** After the swap the resolved folder says what the main file says by itself. So the books have come
      through if and only if every row that says something new in the log was folded. */
  lemma UnfoldedRunEnds(s: State, main: Content, states: seq<State>, steps: seq<Step>)
    requires Inv(s) && MoverEnabled(s, LeaveLog(main))
    requires ForwardRun(states, steps) && states[0] == Left(s, main) && states[|steps|].run.phase.SyncingConfig?
    ensures var e := states[|steps|];
      && Resolve(e) == s.run.to && BooksAt(e) == SaidBy(main, s.run.to)
      && (BooksAt(e) == e.past.books <==> SaidBy(main, s.run.to) == Said(Copy(s), s.run.to))
  {
    LeftIsAdrift(s, main);
    AdriftAlong(states, steps, |steps|, main);
    CopySaysTheBooks(s);
    LandedSays(states[|steps|], main);
  }

  lemma LandedSays(e: State, main: Content)
    requires Landed(e, main) && Resolve(e) == e.run.to
    ensures BooksAt(e) == SaidBy(main, e.run.to)
  {
  }

  lemma CopySaysTheBooks(s: State)
    requires Inv(s) && s.run.phase.Closing?
    ensures Said(Copy(s), s.run.to) == s.past.books
  {
    assert AtClosing(s);
    InvIsSafe(s);
    SourceIsDurable(s);
    CopySaysTheSame(s.run.src, s.run.from, s.run.to, s.run.auditId);
  }

  /** Nothing stops such a run before the swap. */
  lemma {:induction false} UnfoldedRunExists(s: State, main: Content) returns (states: seq<State>, steps: seq<Step>)
    requires Adrift(s, main)
    ensures ForwardRun(states, steps) && states[0] == s && states[|steps|].run.phase.SyncingConfig?
    decreases Rank(s.run.phase), Size(s.run.phase)
  {
    if s.run.phase.SyncingConfig? {
      states, steps := [s], [];
    } else {
      AdriftStep(s, main, Next);
      CommitNearer(s);
      var later, rest := UnfoldedRunExists(MoverNext(s), main);
      states, steps := [s] + later, [Next] + rest;
      RunPrepends(s, Next, later, rest);
    }
  }

  // ----- what is lost -----

  /** A document of the store whose row was not folded is still named by its path in the old store,
      which the move goes on to delete. */
  lemma UnfoldedRowNamesTheOldStore(
    s: State, main: Content, states: seq<State>, steps: seq<Step>, k: Key)
    requires Inv(s) && MoverEnabled(s, LeaveLog(main)) && FoldersApart(s)
    requires ForwardRun(states, steps) && states[0] == Left(s, main) && states[|steps|].run.phase.SyncingConfig?
    requires main.Database? && k.Entry? && k in StoreKeys(s.run.src, s.run.from) && k in main.db
    requires main.db[k] == s.run.src[k]
    ensures var rel := StripPrefix(s.run.src[k].path, DocumentsDir(s.run.from)).value;
      && RowAt(s, k) == Some(Paper(rel))
      && RowAt(states[|steps|], k) == Some(InPlace(PathOf(Doc(s.run.from, rel), s.config)))
  {
    UnfoldedRunEnds(s, main, states, steps);
    RowOfTheBooks(states[|steps|], k);
    RowBeforeTheSwap(s, k);
  }

  lemma RowOfTheBooks(s: State, k: Key)
    requires k.Entry?
    ensures RowAt(s, k) == RowOf(BooksAt(s), k)
  {
  }

  lemma RowBeforeTheSwap(s: State, k: Key)
    requires Inv(s) && s.run.phase.Closing? && FoldersApart(s) && k.Entry? && k in StoreKeys(s.run.src, s.run.from)
    ensures var rel := StripPrefix(s.run.src[k].path, DocumentsDir(s.run.from)).value;
      && RowAt(s, k) == Some(Paper(rel))
      && MeaningOf(s.run.src[k], s.run.to) == InPlace(PathOf(Doc(s.run.from, rel), s.config))
  {
    assert AtClosing(s);
    ResolveIsOption(s);
    InvIsSafe(s);
    SourceIsDurable(s);
    StoreRowElsewhere(s.run.src[k], s.run.from, s.run.to, s.config);
  }

  lemma StoreRowElsewhere(v: Value, from: Path, to: Path, config: Path)
    requires InStore(v, from) && from != to
    requires !StartsWith(to, DocumentsDir(from)) && !StartsWith(from, DocumentsDir(to))
    ensures var rel := StripPrefix(v.path, DocumentsDir(from)).value;
      && MeaningOf(v, from) == Paper(rel) && MeaningOf(v, to) == InPlace(PathOf(Doc(from, rel), config))
  {
    StoresApart(from, to, StripPrefix(v.path, DocumentsDir(from)).value);
  }
}
