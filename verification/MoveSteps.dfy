/**
 What each operation of the move does, relative to the state the call began in. The methods of
 `DataDir` carry these steps out; the reasoning about them is here, on values.
 */
module MoveSteps {
  import opened Wrappers
  import opened Paths
  import opened Books
  import opened Disk
  import opened Move
  import opened MoveInvariant
  import opened MoveWorld
  import opened MoveFrames
  import opened MoveRuns
  import opened MoveForeign
  import opened MoveResume
  import opened MoveFiles

  /** `Err` before the pointer is renamed: the old folder stays active and reads the same. */
  ghost predicate Unmoved(s0: State, s: State, to: Path) {
    && s.run.phase.Idle? && s.lock.None?
    && Resolve(s) == Resolve(s0)
    && SourceKept(s0.fs, s.fs, Resolve(s0))
    && OthersKept(s0.fs, s.fs, Resolve(s0), to)
  }

  lemma AbortGivesUp(s0: State, s: State, to: Path)
    requires Begun(s0, s, to) && BeforeRename(s.run.phase)
    ensures MoverEnabled(s, Abort) && Unmoved(s0, Apply(s, Abort), to)
  {
  }

  // ----- starting -----

  /** What the call may rely on beyond what it checks itself. */
  ghost predicate Prepared0(s: State, to: Path, auditId: string) {
    && Inv(s) && s.run.phase.Idle?
    && Assumed(s, Begin(to))
    && FreshId(s, auditId)
    && (ContentOf(s.fs, Resolve(s)).Some? ==> NoCapture(ContentOf(s.fs, Resolve(s)).value, Resolve(s), to))
  }

  lemma SourceIsThere(s: State, to: Path, auditId: string)
    requires Prepared0(s, to, auditId)
    ensures Now(s.fs, DbFile(Resolve(s), Main)) != None
  {
    ResolveIsOption(s);
    assert Rooted(s.fs, Resolve(s));
  }

  lemma BeginStarts(s0: State, to: Path, auditId: string)
    requires Prepared0(s0, to, auditId) && Validate(s0.fs, Resolve(s0), to).None?
    ensures Covered(s0, Begin(to)) && Starting(s0, Apply(s0, Begin(to)), to, auditId)
  {
    Applied(s0, Begin(to));
  }

  /** Validated, not yet locked. */
  ghost predicate Starting(s0: State, s: State, to: Path, auditId: string) {
    Begun(s0, s, to) && (s.run.phase.Cleaning? || s.run.phase.Locking?) && FreshId(s, auditId) && s.run.oldRemoved
  }

  lemma CleanStep(s0: State, s: State, to: Path, auditId: string)
    requires Starting(s0, s, to, auditId) && s.run.phase.Cleaning?
    ensures Covered(s, Next) && Starting(s0, Apply(s, Next), to, auditId)
    ensures CleaningLeft(Apply(s, Next).run.phase) < CleaningLeft(s.run.phase)
  {
    var id := DbFile(to, s.run.phase.part);
    assert MoverNext(s) == CleanNext(s, s.run.phase.part);
    StepBegun(s0, s, Next, to);
    Applied(s, Next);
    FreshKept(s, Apply(s, Next), id, auditId);
  }

  function CleaningLeft(p: Phase): nat {
    match p
    case Cleaning(part) => (match part case Main => 3 case Wal => 2 case Shm => 1)
    case _ => 0
  }

  // ----- locking -----

  /** Nobody else has the old database open. */
  predicate Unopened(s: State) {
    Resolve(s) !in s.conns.Values
  }

  /** Locked; the plan is fixed. */
  ghost predicate Working0(s0: State, s: State, to: Path, auditId: string) {
    Begun(s0, s, to) && Planned(s0, s) && FreshId(s, auditId) && s.run.oldRemoved
  }

  lemma LockStep(s0: State, s: State, to: Path, auditId: string)
    requires Prepared0(s0, to, auditId) && Starting(s0, s, to, auditId) && s.run.phase.Locking?
    requires Unopened(s0) && s.lock.None? && ContentOf(s0.fs, Resolve(s0)).Some?
    ensures Covered(s, Next)
    ensures Working0(s0, Apply(s, Next), to, auditId) && Apply(s, Next).run.phase == CopyingDb(0)
  {
    var db, from := ContentOf(s.fs, s.run.from).value, s.run.from;
    var s' := Apply(s, Next);
    assert MoverNext(s) == LockAndFold(s, db);
    StepBegun(s0, s, Next, to);
    Applied(s, Next);
    SameStore(s0.fs, s.fs, from);
    LockFresh(s, s', db, auditId);
  }

  lemma LockFresh(s: State, s': State, db: Db, auditId: string)
    requires FreshId(s, auditId) && ContentOf(s.fs, s.run.from) == Some(db)
    requires s'.fs == LockAndFold(s, db).fs && s'.past.made == s.past.made
    ensures FreshId(s', auditId)
  {
    ContentIsFresh(s, s.run.from, auditId);
    var mid := s.(fs := s.fs[DbFile(s.run.from, Main) := Slot(Some(Database(db)), {Some(Database(db))})]);
    FreshKept(s, mid, DbFile(s.run.from, Main), auditId);
    FreshKept(mid, s', DbFile(s.run.from, Wal), auditId);
  }

  // ----- copying -----

  /** A file is being copied and has reached the given stage. */
  ghost predicate Copies(s0: State, s: State, to: Path, auditId: string, stage: nat) {
    && Working0(s0, s, to, auditId)
    && (s.run.phase.CopyingDb? || s.run.phase.CopyingDoc?) && s.run.phase.stage == stage
  }

  /** The same file is being copied. */
  ghost predicate SameCopy(s: State, s': State) {
    && s'.run.store == s.run.store
    && s'.run.phase.CopyingDb? == s.run.phase.CopyingDb?
    && (s'.run.phase.CopyingDoc? && s.run.phase.CopyingDoc? ==>
          s'.run.phase.todo == s.run.phase.todo && s'.run.phase.rel == s.run.phase.rel)
  }

  /** What is left to copy once the file at hand is done. */
  function LeftAfter(s: State): set<Path> {
    if s.run.phase.CopyingDoc? then s.run.phase.todo - {s.run.phase.rel} else s.run.store.Keys
  }

  ghost predicate CopiedOne(s0: State, s: State, s': State, to: Path, auditId: string) {
    Working0(s0, s', to, auditId) && s'.run.phase == CopyingDocs(LeftAfter(s))
  }

  /** The file being copied. */
  function FileAtHand(s: State): FileId {
    if s.run.phase.CopyingDoc? then Doc(s.run.to, s.run.phase.rel) else Partial(s.run.to, Main)
  }

  /** No other file has changed. */
  ghost predicate OnlyTouched(fs: Fs, fs': Fs, id: FileId) {
    forall other :: other != id ==> At(fs', other) == At(fs, other)
  }

  lemma FileIsTouched(s: State)
    requires s.run.phase.CopyingDb? || s.run.phase.CopyingDoc?
    ensures OnlyTouched(s.fs, MoverNext(s).fs, FileAtHand(s))
  {
    NextTouches(s);
    assert Syncs(s).None?;
    forall other | other != FileAtHand(s)
      ensures At(MoverNext(s).fs, other) == At(s.fs, other)
    {
      assert !Touches(s, other) && !Settles(s, other);
    }
  }

  lemma MismatchGivesUp(s0: State, s: State, to: Path, auditId: string)
    requires Copies(s0, s, to, auditId, 2)
    ensures Covered(s, Mismatch) && Unmoved(s0, Apply(s, Mismatch), to)
    ensures Now(Apply(s, Mismatch).fs, FileAtHand(s)).None? && OnlyTouched(s.fs, Apply(s, Mismatch).fs, FileAtHand(s))
  {
    StepBegun(s0, s, Mismatch, to);
    Applied(s, Mismatch);
  }

  lemma CopyStageNext(s0: State, s: State, to: Path, auditId: string, stage: nat)
    requires FreshId(s0, auditId) && Copies(s0, s, to, auditId, stage) && stage <= 2
    ensures Covered(s, Next)
    ensures stage < 2 ==> Copies(s0, Apply(s, Next), to, auditId, stage + 1) && SameCopy(s, Apply(s, Next))
    ensures stage == 2 ==> CopiedOne(s0, s, Apply(s, Next), to, auditId)
    ensures OnlyTouched(s.fs, Apply(s, Next).fs, FileAtHand(s))
  {
    StepBegun(s0, s, Next, to);
    StepKeepsPlan(s, Next);
    Applied(s, Next);
    FileIsTouched(s);
    ContentIsFresh(s0, Resolve(s0), auditId);
    StoreIsFresh(s0, Resolve(s0), auditId);
    CopyStageFresh(s, Apply(s, Next), auditId, stage);
  }

  lemma StoreIsFresh(s: State, dir: Path, auditId: string)
    requires FreshId(s, auditId)
    ensures forall rel :: rel in StoreOf(s.fs, dir) ==> !Mentions(Some(StoreOf(s.fs, dir)[rel]), auditId)
  {
    forall rel | rel in StoreOf(s.fs, dir)
      ensures !Mentions(Some(StoreOf(s.fs, dir)[rel]), auditId)
    {
      OnDiskFresh(s, Doc(dir, rel), Now(s.fs, Doc(dir, rel)), auditId);
    }
  }

  lemma CopyStageFresh(s: State, s': State, auditId: string, stage: nat)
    requires FreshId(s, auditId) && MoveEntry(auditId) !in s.run.src
    requires forall rel :: rel in s.run.store ==> !Mentions(Some(s.run.store[rel]), auditId)
    requires s.run.phase == CopyingDb(stage) || (s.run.phase.CopyingDoc? && s.run.phase.stage == stage)
    requires s'.fs == MoverNext(s).fs && s'.past.made == s.past.made
    ensures FreshId(s', auditId)
  {
    if s.run.phase.CopyingDb? {
      assert MoverNext(s) == CopyDbNext(s, stage);
      FreshKept(s, s', Partial(s.run.to, Main), auditId);
    } else {
      assert MoverNext(s) == CopyDocNext(s, s.run.phase.todo, s.run.phase.rel, stage);
      FreshKept(s, s', Doc(s.run.to, s.run.phase.rel), auditId);
    }
  }

  /** Between documents. */
  ghost predicate Walking(s0: State, s: State, to: Path, auditId: string) {
    Working0(s0, s, to, auditId) && s.run.phase.CopyingDocs?
  }

  lemma TakeDocStep(s0: State, s: State, to: Path, auditId: string, rel: Path)
    requires Walking(s0, s, to, auditId) && rel in s.run.phase.todo
    ensures Covered(s, TakeDoc(rel))
    ensures Copies(s0, Apply(s, TakeDoc(rel)), to, auditId, 0)
    ensures LeftAfter(Apply(s, TakeDoc(rel))) == s.run.phase.todo - {rel}
  {
    assert MoverRaw(s, TakeDoc(rel)) == Goto(s, s.fs, CopyingDoc(s.run.phase.todo, rel, 0));
    StepBegun(s0, s, TakeDoc(rel), to);
    StepKeepsPlan(s, TakeDoc(rel));
    Applied(s, TakeDoc(rel));
  }

  // ----- localising the copy -----

  /** The copy is open; `copied` files are in place. */
  ghost predicate Localising(s0: State, s: State, to: Path, auditId: string) {
    && Working0(s0, s, to, auditId)
    && s.run.copied == 1 + |s.run.store|
  }

  lemma OpenStep(s0: State, s: State, to: Path, auditId: string)
    requires Inv(s) && Walking(s0, s, to, auditId) && s.run.phase.todo == {}
    ensures Covered(s, Next)
    ensures Localising(s0, Apply(s, Next), to, auditId) && Apply(s, Next).run.phase.Rewriting?
  {
    assert AtCopyingDocs(s, {});
    assert PartialView(s.fs, s.run.to).Some?;
    assert MoverNext(s) == OpenCopy(s, PartialView(s.fs, to).value);
    StepBegun(s0, s, Next, to);
    StepKeepsPlan(s, Next);
    Applied(s, Next);
  }

  lemma RowIsThere(s: State, k: Key)
    requires Inv(s) && s.run.phase.Rewriting? && k in s.run.phase.left
    ensures PartialView(s.fs, s.run.to).Some? && k in PartialView(s.fs, s.run.to).value && k in s.run.src
  {
    assert Logged(s, s.run.phase.left) by {
      assert PhaseOk(s);
      assert AtRewriting(s, s.run.phase.left);
    }
    LoggedView(s, s.run.phase.left, k);
  }

  lemma RowStep(s0: State, s: State, to: Path, auditId: string, k: Key)
    requires Localising(s0, s, to, auditId) && s.run.phase.Rewriting? && k in s.run.phase.left
    requires PartialView(s.fs, s.run.to).Some? && k in PartialView(s.fs, s.run.to).value && k in s.run.src
    requires FreshId(s0, auditId)
    ensures Covered(s, TakeRow(k))
    ensures Localising(s0, Apply(s, TakeRow(k)), to, auditId)
    ensures Apply(s, TakeRow(k)).run.phase == Rewriting(s.run.phase.left - {k})
  {
    assert MoverRaw(s, TakeRow(k)) == RewriteRow(s, s.run.phase.left, k);
    StepBegun(s0, s, TakeRow(k), to);
    StepKeepsPlan(s, TakeRow(k));
    Applied(s, TakeRow(k));
    ContentIsFresh(s0, Resolve(s0), auditId);
    RowFresh(s, Apply(s, TakeRow(k)), auditId, k);
  }

  lemma RowFresh(s: State, s': State, auditId: string, k: Key)
    requires FreshId(s, auditId) && MoveEntry(auditId) != k
    requires PartialView(s.fs, s.run.to).Some? && k in PartialView(s.fs, s.run.to).value && s.run.phase.Rewriting?
    requires s'.fs == RewriteRow(s, s.run.phase.left, k).fs && s'.past.made == s.past.made
    ensures FreshId(s', auditId)
  {
    OnDiskFresh(s, Partial(s.run.to, Wal), Now(s.fs, Partial(s.run.to, Wal)), auditId);
    FreshKept(s, s', Partial(s.run.to, Wal), auditId);
  }

  lemma RowsDoneStep(s0: State, s: State, to: Path, auditId: string)
    requires Localising(s0, s, to, auditId) && s.run.phase == Rewriting({})
    ensures Covered(s, Next) && Localising(s0, Apply(s, Next), to, auditId) && Apply(s, Next).run.phase == Auditing
  {
    assert MoverNext(s) == Goto(s, s.fs, Auditing);
    StepBegun(s0, s, Next, to);
    StepKeepsPlan(s, Next);
    Applied(s, Next);
  }

  /** The audit row is written. */
  ghost predicate Recorded(s0: State, s: State, to: Path, auditId: string) {
    && Begun(s0, s, to) && Planned(s0, s) && s.run.oldRemoved
    && s.run.copied == 1 + |s.run.store| && s.run.auditId == auditId
  }

  lemma RecordStep(s0: State, s: State, to: Path, auditId: string)
    requires Localising(s0, s, to, auditId) && s.run.phase == Auditing
    ensures Covered(s, Record(auditId))
    ensures Recorded(s0, Apply(s, Record(auditId)), to, auditId) && Apply(s, Record(auditId)).run.phase == Closing
  {
    assert MoverRaw(s, Record(auditId)) == RecordMove(s, auditId);
    StepBegun(s0, s, Record(auditId), to);
    StepKeepsPlan(s, Record(auditId));
    Applied(s, Record(auditId));
  }

  /** The copy is closed, and its main file holds `c`; what the report will say is settled. */
  ghost predicate Sealed(s0: State, s: State, to: Path, auditId: string, c: Content) {
    Recorded(s0, s, to, auditId) && Bears(s, c)
  }

  lemma CloseStep(s0: State, s: State, to: Path, auditId: string)
    requires Inv(s) && Recorded(s0, s, to, auditId) && s.run.phase == Closing
    ensures Covered(s, Next) && Apply(s, Next).run.phase == Journaling(0)
    ensures Sealed(s0, Apply(s, Next), to, auditId, Database(Copy(s))) && Copy(Apply(s, Next)) == Copy(s)
    ensures Now(Apply(s, Next).fs, Partial(to, Wal)).None?
  {
    CanClose(s);
    StepBegun(s0, s, Next, to);
    Applied(s, Next);
    var s' := ClosedCopy(s);
    ClosesTo(s);
    StaysRecorded(s0, s, s', to, auditId);
    ClosedBears(s, s');
  }

  function ClosedCopy(s: State): State {
    Goto(s, CloseCopy(s.fs, s.run.to, Copy(s)), Journaling(0))
  }

  lemma ClosesTo(s: State)
    requires Inv(s) && s.run.phase.Closing?
    ensures MoverEnabled(s, Next) && MoverNext(s) == ClosedCopy(s)
  {
    assert AtClosing(s);
  }

  lemma ClosedBears(s: State, s': State)
    requires PhaseOk(s) && s.run.phase.Closing? && s' == ClosedCopy(s)
    ensures Bears(s', Database(Copy(s))) && Now(s'.fs, Partial(s.run.to, Wal)).None?
  {
    assert AtClosing(s);
    DocsAreCopied(s);
  }

  lemma DocsAreCopied(s: State)
    requires Copied(s, {})
    ensures DocsThere(s)
  {
    forall rel | rel in s.run.store
      ensures Now(s.fs, Doc(s.run.to, rel)) == Some(s.run.store[rel])
    {
      assert Holds(s.fs, Doc(s.run.to, rel), s.run.store[rel]);
    }
  }

  /** The close leaves its log behind, and nobody is told. */
  lemma LeaveStep(s0: State, s: State, to: Path, auditId: string, main: Content)
    requires Inv(s) && Recorded(s0, s, to, auditId) && MoverEnabled(s, LeaveLog(main))
    ensures Enabled(s, LeaveLog(main)) && Apply(s, LeaveLog(main)).run.phase == Journaling(0)
    ensures Sealed(s0, Apply(s, LeaveLog(main)), to, auditId, main) && Copy(Apply(s, LeaveLog(main))) == Copy(s)
    ensures !BlankLog(Now(Apply(s, LeaveLog(main)).fs, Partial(to, Wal)))
    ensures LogAddsNothing(Apply(s, LeaveLog(main)).fs, to) <==> main == Database(Copy(s))
  {
    StepBegun(s0, s, LeaveLog(main), to);
    Applied(s, LeaveLog(main));
    LogMattersExactly(s, main);
    StaysRecorded(s0, s, LeftWith(s, main), to, auditId);
    LeftBears(s, LeftWith(s, main), main);
  }

  /** The copy's main file is left with `main` in it. */
  function LeftWith(s: State, main: Content): State {
    Goto(s, Write(s.fs, Partial(s.run.to, Main), main), Journaling(0))
  }

  lemma StaysRecorded(s0: State, s: State, s': State, to: Path, auditId: string)
    requires Recorded(s0, s, to, auditId) && Begun(s0, s', to) && s'.run == s.run.(phase := s'.run.phase)
    ensures Recorded(s0, s', to, auditId) && Copy(s') == Copy(s)
  {
  }

  lemma LeftBears(s: State, s': State, main: Content)
    requires PhaseOk(s) && s.run.phase.Closing? && s' == LeftWith(s, main)
    ensures Bears(s', main) && !BlankLog(Now(s'.fs, Partial(s.run.to, Wal)))
  {
    assert AtClosing(s);
    DocsAreCopied(s);
  }

  /** The main file of the partial copy reads the same with and without the log beside it. */
  predicate LogAddsNothing(fs: Fs, to: Path) {
    PartialView(fs, to).Some? && Recover(Now(fs, Partial(to, Main)), None) == PartialView(fs, to)
  }

  /** Whatever a failing close leaves: opened with the log beside it, a readable main file is the whole
      copy; so by itself it is the copy if and only if the log adds nothing to it. */
  lemma LogMattersExactly(s: State, main: Content)
    requires PhaseOk(s) && MoverEnabled(s, LeaveLog(main))
    ensures var fs' := MoverRaw(s, LeaveLog(main)).fs;
      && (main.Database? ==> PartialView(fs', s.run.to) == Some(Copy(s)))
      && (LogAddsNothing(fs', s.run.to) <==> main == Database(Copy(s)))
  {
    assert AtClosing(s);
    var over := LogOver(Now(s.fs, Partial(s.run.to, Wal)));
    var base := Now(s.fs, Partial(s.run.to, Main)).value.db;
    assert base + over == Copy(s);
    if main.Database? {
      RestIsInTheLog(base, over, main.db);
    }
    ViewOfLeft(s, main, over);
  }

  /** What was not folded is still in the log. */
  lemma RestIsInTheLog(base: Db, over: Db, db: Db)
    requires MayLeave(base, over, Database(db))
    ensures db + over == base + over
  {
  }

  lemma ViewOfLeft(s: State, main: Content, over: Db)
    requires Now(s.fs, Partial(s.run.to, Wal)) == Some(Log(over)) && (main.Torn? || main.Database?)
    ensures var fs' := LeftWith(s, main).fs;
      && PartialView(fs', s.run.to) == (if main.Database? then Some(main.db + over) else None)
      && (LogAddsNothing(fs', s.run.to) <==> main.Database? && main.db == main.db + over)
  {
  }

  // ----- the commit window -----

  lemma CommitWindowStep(s0: State, s: State, to: Path, auditId: string, c: Content)
    requires Sealed(s0, s, to, auditId, c) && Committing(s.run.phase)
    ensures Covered(s, Next)
    ensures Sealed(s0, Apply(s, Next), to, auditId, c) && Apply(s, Next).run.phase == Following(s.run.phase)
  {
    StepBegun(s0, s, Next, to);
    StepKeepsPlan(s, Next);
    Applied(s, Next);
    FollowingPhase(s);
    BearsOn(s, c);
  }

  /** The pointer file names the new folder, which holds the copy and every document; the old folder is
      still whole. */
  ghost predicate Switched(s0: State, s: State, to: Path, auditId: string, c: Content) {
    && Resolve(s) == to && s.run.to == to && s.run.from == Resolve(s0) && to != Resolve(s0)
    && Planned(s0, s) && Landed(s, c)
    && SourceKept(s0.fs, s.fs, Resolve(s0)) && OthersKept(s0.fs, s.fs, Resolve(s0), to)
    && s.run.copied == 1 + |s.run.store| && s.run.auditId == auditId
    && s.run.rewritten == |StoreKeys(s.run.src, Resolve(s0))| && s.run.oldRemoved
  }

  lemma SwapStep(s0: State, s: State, to: Path, auditId: string, c: Content)
    requires Sealed(s0, s, to, auditId, c) && s.run.phase == Swapping
    ensures Covered(s, Next)
    ensures Switched(s0, Apply(s, Next), to, auditId, c) && Apply(s, Next).run.phase == SyncingConfig
  {
    SwapApplied(s);
    SwapIsKept(s);
    BornAcross(s, c);
    SwitchedSince(s0, s, Swap(s), to, auditId, c);
  }

  lemma SwapApplied(s: State)
    requires s.run.phase == Swapping
    ensures Covered(s, Next) && Apply(s, Next) == Swap(s)
  {
    assert MoverNext(s) == Swap(s);
  }

  lemma SwapIsKept(s: State)
    requires s.run.phase == Swapping && s.run.from != s.run.to && Now(s.fs, PointerTmp) == Some(PointerTo(s.run.to))
    ensures Resolve(Swap(s)) == s.run.to && Kept(s, Swap(s))
    ensures forall id :: id != Pointer && id != PointerTmp ==> Now(Swap(s).fs, id) == Now(s.fs, id)
  {
    assert MoverNext(s) == Swap(s);
    NextKept(s);
  }

  lemma SwitchedSince(s0: State, s: State, s': State, to: Path, auditId: string, c: Content)
    requires Recorded(s0, s, to, auditId) && Landed(s, c) && s.run.rewritten == |StoreKeys(s.run.src, s.run.from)|
    requires s'.run == s.run.(phase := s'.run.phase) && Resolve(s') == to
    requires forall id :: id != Pointer && id != PointerTmp ==> Now(s'.fs, id) == Now(s.fs, id)
    ensures Switched(s0, s', to, auditId, c)
  {
    forall rel
      ensures Now(s'.fs, Doc(s.run.from, rel)) == Now(s0.fs, Doc(s.run.from, rel))
    {
      assert Now(s.fs, Doc(s.run.from, rel)) == Now(s0.fs, Doc(s.run.from, rel));
    }
    LandedStays(s, s', c);
  }

  lemma SyncConfigStep(s0: State, s: State, to: Path, auditId: string, c: Content)
    requires Switched(s0, s, to, auditId, c) && s.run.phase == SyncingConfig
    ensures Covered(s, Next)
    ensures Switched(s0, Apply(s, Next), to, auditId, c) && Apply(s, Next).run.phase == ReadingBack
  {
    var s' := Apply(s, Next);
    assert MoverNext(s) == SyncConfig(s);
    PointerStays(s, Next);
    SyncKeeps(s, MoverNext(s), Config);
    Applied(s, Next);
    SameNow(s0, s, s', to, auditId, c);
  }

  /** Nothing visible has changed. */
  lemma SameNow(s0: State, s: State, s': State, to: Path, auditId: string, c: Content)
    requires Switched(s0, s, to, auditId, c) && Resolve(s') == to
    requires forall id :: Now(s'.fs, id) == Now(s.fs, id)
    requires SamePlan(s, s') && s'.run.oldRemoved == s.run.oldRemoved
    ensures Switched(s0, s', to, auditId, c)
  {
  }

  /** An `Err` after the swap: the new folder is active and holds the copy, nothing old is deleted. */
  ghost predicate Stranded(s0: State, s: State, to: Path, auditId: string, c: Content) {
    Switched(s0, s, to, auditId, c) && s.run.phase.Idle?
  }

  lemma AbortAfterSwap(s0: State, s: State, to: Path, auditId: string, c: Content)
    requires Switched(s0, s, to, auditId, c) && (s.run.phase.SyncingConfig? || s.run.phase.ReadingBack?)
    ensures Covered(s, Abort) && Stranded(s0, Apply(s, Abort), to, auditId, c)
  {
    assert MoverRaw(s, Abort) == Stopped(s);
    Applied(s, Abort);
    SameNow(s0, s, Apply(s, Abort), to, auditId, c);
  }

  lemma ReadBackStep(s0: State, s: State, to: Path, auditId: string, c: Content)
    requires Switched(s0, s, to, auditId, c) && s.run.phase == ReadingBack
    ensures Covered(s, Next)
    ensures Switched(s0, Apply(s, Next), to, auditId, c) && Apply(s, Next).run.phase == Deleting(Main)
  {
    NextKeepsPlan(s);
    Applied(s, Next);
    SameNow(s0, s, Apply(s, Next), to, auditId, c);
  }

  // ----- removing the old copy -----

  predicate PartGone(s: State, part: DbPart) {
    Now(s.fs, DbFile(s.run.from, part)).None?
  }

  /** If every removal so far has succeeded, what has been passed is gone. */
  ghost predicate GoneSoFar(s: State) {
    match s.run.phase
    case Deleting(part) =>
      && (part != Main ==> PartGone(s, Main))
      && (part == Shm ==> PartGone(s, Wal))
    case DeletingDocs(todo) => DatabaseGone(s) && forall rel :: Now(s.fs, Doc(s.run.from, rel)).Some? ==> rel in todo
    case _ => OldGone(s)
  }

  predicate DatabaseGone(s: State) {
    PartGone(s, Main) && PartGone(s, Wal) && PartGone(s, Shm)
  }

  /** No database and no document is left in the old folder. */
  ghost predicate OldGone(s: State) {
    DatabaseGone(s) && forall rel :: Now(s.fs, Doc(s.run.from, rel)).None?
  }

  /** The new folder is active and holds the copy; the old one is being removed. */
  ghost predicate Removing(s0: State, s: State, to: Path, auditId: string, c: Content) {
    && Resolve(s) == to && s.run.to == to && s.run.from == Resolve(s0) && to != Resolve(s0)
    && Planned(s0, s) && Landed(s, c)
    && OthersKept(s0.fs, s.fs, Resolve(s0), to)
    && s.run.copied == 1 + |s.run.store| && s.run.auditId == auditId
    && s.run.rewritten == |StoreKeys(s.run.src, Resolve(s0))|
    && (s.run.oldRemoved ==> GoneSoFar(s))
  }

  lemma RemovalBegins(s0: State, s: State, to: Path, auditId: string, c: Content)
    requires Switched(s0, s, to, auditId, c) && s.run.phase == Deleting(Main)
    ensures Removing(s0, s, to, auditId, c)
  {
  }

  /** A removal step keeps the new folder and reports honestly. */
  lemma RemovalFrame(s0: State, s: State, s': State, to: Path, auditId: string, c: Content)
    requires Removing(s0, s, to, auditId, c) && OnlyOldRemoved(s.fs, s'.fs, s.run.from)
    requires SamePlan(s, s') && s'.fallback == s.fallback
    requires s'.run.oldRemoved ==> GoneSoFar(s')
    ensures Removing(s0, s', to, auditId, c)
  {
  }

  lemma RemovePartStep(s0: State, s: State, to: Path, auditId: string, c: Content, part: DbPart)
    requires Removing(s0, s, to, auditId, c) && s.run.phase == Deleting(part)
    ensures Covered(s, Next)
    ensures Removing(s0, Apply(s, Next), to, auditId, c) && Apply(s, Next).run.phase == AfterDeleting(s, part)
    ensures OnlyOldRemoved(s.fs, Apply(s, Next).fs, Resolve(s0))
  {
    var s' := WithoutPart(s, part);
    Applied(s, Next);
    assert MoverNext(s) == s';
    PartIsGone(s, s', part);
    RemoveOne(s.fs, DbFile(s.run.from, part), s.run.from);
    RemovalFrame(s0, s, s', to, auditId, c);
  }

  function WithoutPart(s: State, part: DbPart): State {
    Goto(s, Remove(s.fs, DbFile(s.run.from, part)), AfterDeleting(s, part))
  }

  lemma PartIsGone(s: State, s': State, part: DbPart)
    requires s.run.phase == Deleting(part) && s' == WithoutPart(s, part) && (s.run.oldRemoved ==> GoneSoFar(s))
    ensures s.run.oldRemoved ==> GoneSoFar(s')
  {
    if part == Shm {
      StillListed(s, s', DbFile(s.run.from, part));
    }
  }

  lemma StillListed(s: State, s': State, id: FileId)
    requires id.DbFile? && s'.fs == Remove(s.fs, id) && s'.run.from == s.run.from
    ensures forall rel :: Now(s'.fs, Doc(s.run.from, rel)).Some? ==> rel in StoreNames(s.fs, s.run.from)
  {
  }

  lemma RemoveDocStep(s0: State, s: State, to: Path, auditId: string, c: Content, rel: Path)
    requires Removing(s0, s, to, auditId, c) && s.run.phase.DeletingDocs? && rel in s.run.phase.todo
    ensures Covered(s, TakeDoc(rel))
    ensures Removing(s0, Apply(s, TakeDoc(rel)), to, auditId, c)
    ensures Apply(s, TakeDoc(rel)).run.phase == DeletingDocs(s.run.phase.todo - {rel})
    ensures OnlyDocsRemoved(s.fs, Apply(s, TakeDoc(rel)).fs, Resolve(s0))
  {
    var s' := Goto(s, Remove(s.fs, Doc(s.run.from, rel)), DeletingDocs(s.run.phase.todo - {rel}));
    Applied(s, TakeDoc(rel));
    assert MoverRaw(s, TakeDoc(rel)) == s';
    DocGone(s, s', rel);
    RemoveOne(s.fs, Doc(s.run.from, rel), s.run.from);
    RemovalFrame(s0, s, s', to, auditId, c);
  }

  lemma DocGone(s: State, s': State, rel: Path)
    requires s.run.phase.DeletingDocs? && (s.run.oldRemoved ==> GoneSoFar(s))
    requires s' == Goto(s, Remove(s.fs, Doc(s.run.from, rel)), DeletingDocs(s.run.phase.todo - {rel}))
    ensures s.run.oldRemoved ==> GoneSoFar(s')
    ensures OnlyDocsRemoved(s.fs, s'.fs, s.run.from)
  {
  }

  lemma DocsDoneStep(s0: State, s: State, to: Path, auditId: string, c: Content)
    requires Removing(s0, s, to, auditId, c) && s.run.phase == DeletingDocs({})
    ensures Covered(s, Next)
    ensures Removing(s0, Apply(s, Next), to, auditId, c) && Apply(s, Next).run.phase == DeletingJournal
    ensures Apply(s, Next).fs == s.fs
  {
    Applied(s, Next);
    assert MoverNext(s) == Goto(s, s.fs, DeletingJournal);
    RemovalFrame(s0, s, Apply(s, Next), to, auditId, c);
  }

  lemma RemoveJournalStep(s0: State, s: State, to: Path, auditId: string, c: Content)
    requires Removing(s0, s, to, auditId, c) && s.run.phase == DeletingJournal
    ensures Covered(s, Next)
    ensures Removing(s0, Apply(s, Next), to, auditId, c) && Apply(s, Next).run.phase == Idle
    ensures Now(Apply(s, Next).fs, Journal).None? && OnlyOldRemoved(s.fs, Apply(s, Next).fs, Resolve(s0))
  {
    var s' := Goto(s, Remove(s.fs, Journal), Idle);
    Applied(s, Next);
    assert MoverNext(s) == s';
    JournalIsGone(s, s');
    RemoveOne(s.fs, Journal, s.run.from);
    RemovalFrame(s0, s, s', to, auditId, c);
  }

  lemma JournalIsGone(s: State, s': State)
    requires s.run.phase == DeletingJournal && s' == Goto(s, Remove(s.fs, Journal), Idle)
    requires s.run.oldRemoved ==> GoneSoFar(s)
    ensures s.run.oldRemoved ==> GoneSoFar(s')
  {
  }

  lemma SkipStep(s0: State, s: State, to: Path, auditId: string, c: Content)
    requires Removing(s0, s, to, auditId, c)
    requires s.run.phase.Deleting? || s.run.phase.DeletingDocs? || s.run.phase.DeletingJournal?
    ensures Covered(s, Skip) && Removing(s0, Apply(s, Skip), to, auditId, c) && Apply(s, Skip).fs == s.fs
    ensures s.run.phase.Deleting? ==> Apply(s, Skip).run.phase == AfterDeleting(s, s.run.phase.part)
    ensures s.run.phase.DeletingDocs? ==> Apply(s, Skip).run.phase == DeletingJournal
    ensures s.run.phase.DeletingJournal? ==> Apply(s, Skip).run.phase == Idle
  {
    Applied(s, Skip);
    assert MoverRaw(s, Skip) == SkipNext(s);
    SkipFrame(s);
    RemovalFrame(s0, s, SkipNext(s), to, auditId, c);
  }

  lemma SkipFrame(s: State)
    requires s.run.phase.Deleting? || s.run.phase.DeletingDocs? || s.run.phase.DeletingJournal?
    requires s.run.oldRemoved ==> GoneSoFar(s)
    ensures SkipNext(s).fs == s.fs && SamePlan(s, SkipNext(s)) && SkipNext(s).fallback == s.fallback
    ensures SkipNext(s).run.oldRemoved ==> GoneSoFar(SkipNext(s))
    ensures SkipNext(s).run.phase ==
      match s.run.phase
      case Deleting(part) => AfterDeleting(s, part)
      case DeletingDocs(_) => DeletingJournal
      case _ => Idle
  {
  }

  // ----- what is on disk at the milestones -----

  /** The database and all documents but those in `todo` are copied, durably, and counted. */
  predicate CopiedButFor(s: State, todo: set<Path>) {
    && Holds(s.fs, Partial(s.run.to, Main), Database(s.run.src)) && Copied(s, todo)
    && todo <= s.run.store.Keys && s.run.copied == 1 + |s.run.store| - |todo|
  }

  lemma CopiesAreDurable(s: State)
    requires Inv(s) && s.run.phase.CopyingDocs?
    ensures CopiedButFor(s, s.run.phase.todo)
  {
    assert AtCopyingDocs(s, s.run.phase.todo);
  }

  /** The copy opens as the localised source; every row of the store has been re-pointed and counted. */
  predicate AllRepointed(s: State) {
    && PartialView(s.fs, s.run.to) == Some(Localised(s.run.src, s.run.from, s.run.to))
    && s.run.rewritten == |StoreKeys(s.run.src, s.run.from)|
  }

  lemma RowsAreRepointed(s: State)
    requires Inv(s) && s.run.phase == Rewriting({})
    ensures AllRepointed(s)
  {
    assert Logged(s, {});
    OverlayRewrites(s.run.src, s.run.from, s.run.to);
    assert s.run.src + map[] == s.run.src;
  }

  /** The closed copy, with its audit row, and every document: all durable under the partial name. */
  predicate CopyIsClosed(s: State) {
    && Holds(s.fs, Partial(s.run.to, Main), Database(Copy(s))) && Now(s.fs, Partial(s.run.to, Wal)).None?
    && Copied(s, {}) && s.run.rewritten == |StoreKeys(s.run.src, s.run.from)|
  }

  /** A copy about to be closed can be opened. */
  lemma CanClose(s: State)
    requires Inv(s) && s.run.phase.Closing?
    ensures PartialView(s.fs, s.run.to).Some?
  {
    assert AtClosing(s);
  }

  lemma ClosedFacts(s: State)
    requires Inv(s) && s.run.phase == Journaling(0)
    ensures CopyIsClosed(s)
  {
    assert AtJournaling(s, 0);
  }

  lemma JournalIsDurable(s: State)
    requires Inv(s) && s.run.phase.Finalising?
    ensures Holds(s.fs, Journal, OwnJournal(s)) && CopyIsClosed(s) && Now(s.fs, DbFile(s.run.to, Main)).None?
  {
    assert AtFinalising(s);
  }

  /** The copy has its final name and the journal vouches for it, both durably. */
  predicate HasArrived(s: State) {
    && Holds(s.fs, DbFile(s.run.to, Main), Database(Copy(s))) && Holds(s.fs, Journal, OwnJournal(s))
    && OnDisk(s.fs, Partial(s.run.to, Wal)) == {None} && Copied(s, {})
  }

  lemma ArrivalIsDurable(s: State)
    requires Inv(s) && (s.run.phase.WritingTmp? || s.run.phase.Swapping?)
    ensures HasArrived(s)
  {
    assert Arrived(s);
  }

  /** After the swap is on disk, nothing but the new folder can be resolved. */
  lemma SwapIsDurable(s: State)
    requires Inv(s) && s.run.phase.ReadingBack?
    ensures Options(s) == {Resolve(s)}
  {
    assert AtReadingBack(s) && PointerWhole(s);
    ResolveIsOption(s);
  }

  /** What a cleaning run has removed so far. */
  predicate CleanedUpTo(s: State) {
    match s.run.phase
    case Cleaning(Main) => true
    case Cleaning(Wal) => Now(s.fs, DbFile(s.run.to, Main)).None?
    case Cleaning(Shm) => Now(s.fs, DbFile(s.run.to, Main)).None? && Now(s.fs, DbFile(s.run.to, Wal)).None?
    case _ => forall part :: Now(s.fs, DbFile(s.run.to, part)).None?
  }

  lemma CleaningGoesOn(s: State)
    requires s.run.phase.Cleaning? && CleanedUpTo(s)
    ensures CleanedUpTo(MoverNext(s))
  {
    var s' := MoverNext(s);
    assert s' == CleanNext(s, s.run.phase.part);
    if s.run.phase.part.Shm? {
      forall part
        ensures Now(s'.fs, DbFile(s.run.to, part)).None?
      {
        match part { case Main => case Wal => case Shm => }
      }
    }
  }

  // ----- trying again -----

  /** What is left to the caller of a move that is ready to start: no document stored in place lies in
      the target's store, and the audit id is new. */
  ghost predicate Unclaimed(s: State, to: Path, auditId: string) {
    && FreshId(s, auditId)
    && (ContentOf(s.fs, Resolve(s)).Some? ==> NoCapture(ContentOf(s.fs, Resolve(s)).value, Resolve(s), to))
  }

  lemma ReadyIsPrepared(s: State, to: Path, auditId: string)
    requires Ready(s, to) && Unclaimed(s, to, auditId)
    ensures Prepared0(s, to, auditId) && Validate(s.fs, Resolve(s), to).None?
  {
  }

  /** Other processes opening, working and closing, and the kernel writing back. */
  predicate Work(step: Step) {
    step.Open? || step.Close? || step.Commit? || step.Flush?
  }

  /** Work done in between does not stand in the way of the move. */
  lemma WorkKeepsReady(s: State, to: Path, step: Step)
    requires Ready(s, to) && Work(step) && WorldEnabled(s, step)
    ensures Ready(WorldRaw(s, step), to)
  {
    StepKeeps(s, step);
    InvIsSafe(s);
    if step.Commit? {
      CommitKeepsReady(s, to, step.pid, step.rows, step.papers);
    } else if step.Flush? {
      FlushKeepsReady(s, to, step.id);
    } else {
      assert WorldRaw(s, step).fs == s.fs && WorldRaw(s, step).run == s.run;
      StillReady(s, WorldRaw(s, step), to);
    }
  }

  lemma CommitKeepsReady(s: State, to: Path, pid: nat, rows: Db, papers: map<Path, Bytes>)
    requires Ready(s, to) && WorldEnabled(s, Commit(pid, rows, papers))
    requires Inv(WorldRaw(s, Commit(pid, rows, papers)))
    ensures Ready(WorldRaw(s, Commit(pid, rows, papers)), to)
  {
    InvIsSafe(s);
    assert s.conns[pid] == Resolve(s);
    CommitLeavesTheTarget(s.fs, Resolve(s), to, rows, papers);
    StillReady(s, Committed(s, Resolve(s), rows, papers), to);
  }

  lemma CommitLeavesTheTarget(fs: Fs, q: Path, to: Path, rows: Db, papers: map<Path, Bytes>)
    requires Rooted(fs, q) && to != q
    ensures var fs' := AddPapers(AddRows(fs, q, rows), q, papers);
      && At(fs', Pointer) == At(fs, Pointer) && At(fs', Journal) == At(fs, Journal)
      && At(fs', DbFile(to, Main)) == At(fs, DbFile(to, Main))
      && At(fs', DbFile(to, Wal)) == At(fs, DbFile(to, Wal))
      && At(fs', Partial(to, Wal)) == At(fs, Partial(to, Wal))
      && At(fs', DbFile(q, Main)) == At(fs, DbFile(q, Main))
  {
    CommitFiles(fs, q, rows, papers);
  }

  lemma FlushKeepsReady(s: State, to: Path, id: FileId)
    requires Ready(s, to) && id in s.fs && Inv(WorldRaw(s, Flush(id)))
    ensures Ready(WorldRaw(s, Flush(id)), to)
  {
    InvIsSafe(s);
    FlushFolders(s.fs, id);
    ResolveIsOption(s);
    FewerOptions(s, WorldRaw(s, Flush(id)));
    StillReady(s, WorldRaw(s, Flush(id)), to);
  }

  lemma StillReady(s: State, s': State, to: Path)
    requires Ready(s, to) && Inv(s') && s'.run == s.run && s'.config == s.config && Resolve(s') == Resolve(s)
    requires Options(s') <= Options(s)
    requires Now(s'.fs, Journal) == Now(s.fs, Journal)
    requires NoWorse(s.fs, s'.fs, DbFile(to, Main)) && NoWorse(s.fs, s'.fs, DbFile(to, Wal))
    requires Now(s'.fs, Partial(to, Wal)) == Now(s.fs, Partial(to, Wal))
    requires Now(s'.fs, DbFile(Resolve(s), Main)) == Now(s.fs, DbFile(Resolve(s), Main))
    ensures Ready(s', to)
  {
    FewerFolders(Options(s) + {to}, Options(s') + {to}, s.config);
    NoWorseFile(s.fs, s'.fs, DbFile(to, Wal));
  }

  /** The steps of `work` that can be taken when their turn comes. */
  function Worked(s: State, work: seq<Step>): State
    decreases |work|
  {
    if work == [] then s
    else if Work(work[0]) && WorldEnabled(s, work[0]) then Worked(WorldRaw(s, work[0]), work[1..])
    else Worked(s, work[1..])
  }

  lemma {:induction false} WorkedIsReady(s: State, to: Path, work: seq<Step>)
    requires Ready(s, to)
    ensures Ready(Worked(s, work), to)
    decreases |work|
  {
    if work != [] {
      if Work(work[0]) && WorldEnabled(s, work[0]) {
        WorkKeepsReady(s, to, work[0]);
        WorkedIsReady(WorldRaw(s, work[0]), to, work[1..]);
      } else {
        WorkedIsReady(s, to, work[1..]);
      }
    }
  }

  /** After a crash at any step before the swap, outside the localising pass, and any amount of work
      by other processes, the same move can be called again; it passes validation. */
  lemma CrashThenWorkIsReady(s: State, work: seq<Step>)
    requires Inv(s) && BeforeSwap(s.run.phase) && FoldersApart(s) && !LogOpen(s)
    ensures Covered(s, Abort) && Ready(Worked(Apply(s, Abort), work), s.run.to)
  {
    CrashIsResumableExactlyOutsideLocalising(s);
    WorkedIsReady(Apply(s, Abort), s.run.to, work);
  }

  /** The same after a power cut that leaves the pointer where it was. */
  lemma PowerCutThenWorkIsReady(s: State, cut: Fs, work: seq<Step>)
    requires Inv(s) && BeforeSwap(s.run.phase) && FoldersApart(s)
    requires Silent(s.fs, Partial(s.run.to, Wal)) && Vouched(s)
    requires CutOf(s.fs, cut) && Resolve(Cut(s, cut)) == s.run.from
    ensures Ready(Worked(Cut(s, cut), work), s.run.to)
  {
    PowerCutIsResumableExactly(s);
    WorkedIsReady(Cut(s, cut), s.run.to, work);
  }
}
