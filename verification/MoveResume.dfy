/**
 Interrupted moves: from which crashes and power cuts the same move can be started again, and
 exactly what stands in the way otherwise.
 */
module MoveResume {
  import opened Wrappers
  import opened Paths
  import opened Books
  import opened Disk
  import opened Move
  import opened MoveInvariant
  import opened MoveWorld
  import opened MoveFrames
  import opened MoveRuns
  import opened MoveForeign

  /** The move to `to` can be started: it passes validation, and what it relies on holds. */
  ghost predicate Ready(s: State, to: Path) {
    Inv(s) && Covered(s, Begin(to))
  }

  /** No folder involved lies in another one's documents store. */
  predicate FoldersApart(s: State) {
    Placed(Options(s) + {s.run.to}, s.config)
  }

  /** What a run assumed of its folders when it began stays true up to the swap. */
  lemma FoldersStayApart(s: State, step: Step)
    requires Inv(s) && Covered(s, step) && (step.Begin? || FoldersApart(s))
    requires !(step.Next? && s.run.phase.Swapping?)
    ensures FoldersApart(Apply(s, step))
  {
    var s' := Apply(s, step);
    FoldersSettle(s, step);
    FewerFolders(Options(s) + {s'.run.to}, Options(s') + {s'.run.to}, s.config);
  }

  lemma FoldersSettle(s: State, step: Step)
    requires Inv(s) && Covered(s, step) && !(step.Next? && s.run.phase.Swapping?)
    ensures Options(Apply(s, step)) <= Options(s) && Apply(s, step).config == s.config
    ensures Apply(s, step).run.to == if step.Begin? then step.to else s.run.to
  {
    if IsMover(step) {
      PointerSettles(s, step);
      FewerOptions(s, MoverRaw(s, step));
      MoverSource(s, step);
      MoverKeepsConfig(s, step);
    } else if step.PowerCut? {
      CutOptions(s, step.cut);
    } else if step.Commit? {
      CommitOptions(s, step);
    } else {
      WorldLoosensNothing(s, step);
    }
  }

  lemma MoverKeepsConfig(s: State, step: Step)
    requires IsMover(step) && MoverEnabled(s, step)
    ensures MoverRaw(s, step).config == s.config
  {
    if step.Next? {
      NextKeepsPlan(s);
    }
  }

  lemma CommitOptions(s: State, step: Step)
    requires Inv(s) && step.Commit? && WorldEnabled(s, step)
    ensures Options(WorldRaw(s, step)) == Options(s)
  {
    assert s.conns[step.pid] == Resolve(s);
    CommitFiles(s.fs, Resolve(s), step.rows, step.papers);
  }

  // ----- after a crash of the process -----

  /** The localising pass has committed something to the copy's log and not closed it yet. */
  predicate LogOpen(s: State) {
    (s.run.phase.Rewriting? || s.run.phase.Auditing? || s.run.phase.Closing?)
    && LogOver(Now(s.fs, Partial(s.run.to, Wal))) != map[]
  }

  /** A process that dies before the swap, at any step, leaves a state from which the same move
      passes validation: the target's final name is free, or the journal vouches for what is there.
      Nothing the readers see has changed. */
  lemma CrashBeforeSwapValidates(s: State)
    requires Inv(s) && BeforeSwap(s.run.phase)
    ensures Enabled(Apply(s, Abort), Begin(s.run.to))
    ensures Resolve(Apply(s, Abort)) == s.run.from && Apply(s, Abort).fs == s.fs
    ensures Apply(s, Abort).lock.None?
  {
    ResolveIsOption(s);
    TargetFreeOrOwn(s);
  }

  /** It also leaves nothing stale behind, unless it died between the first row it re-pointed
      and closing the copy. Exactly those crashes leave a log beside the partial copy that has
      to be removed before the move is tried again. */
  lemma CrashIsResumableExactlyOutsideLocalising(s: State)
    requires Inv(s) && BeforeSwap(s.run.phase) && FoldersApart(s)
    ensures Ready(Apply(s, Abort), s.run.to) <==> !LogOpen(s)
  {
    LogsBeforeSwap(s);
    CrashBeforeSwapValidates(s);
    AbortKeeps(s);
    StoppedIsReadyWhen(s, Stopped(s), s.run.to);
  }

  lemma AbortKeeps(s: State)
    requires Inv(s) && !s.run.phase.Idle?
    ensures Covered(s, Abort) && Apply(s, Abort) == Stopped(s) && Inv(Stopped(s))
  {
    StepKeeps(s, Abort);
  }

  lemma StoppedIsReadyWhen(s: State, s': State, to: Path)
    requires Inv(s') && s' == Stopped(s) && Enabled(s', Begin(to)) && Placed(Options(s) + {to}, s.config)
    requires Blank(s.fs, DbFile(to, Wal))
    ensures Ready(s', to) <==> BlankLog(Now(s.fs, Partial(to, Wal)))
  {
    assert Options(s') == Options(s);
  }

  lemma LogsBeforeSwap(s: State)
    requires PhaseOk(s) && BeforeSwap(s.run.phase)
    ensures Blank(s.fs, DbFile(s.run.to, Wal))
    ensures BlankLog(Now(s.fs, Partial(s.run.to, Wal))) <==> !LogOpen(s)
  {
  }

  // ----- after a power cut -----

  /** What a journal found as `journal` says of a database found as `main` at the final name. */
  predicate Vouches(from: Path, to: Path, journal: File, main: File) {
    main.None? || journal == Some(JournalOf(from, to, Sha256(main.value)))
  }

  /** However the journal and the target's final name come back, the one vouches for the other. */
  predicate Vouched(s: State) {
    forall journal, main ::
      journal in OnDisk(s.fs, Journal) && main in OnDisk(s.fs, DbFile(s.run.to, Main)) ==>
        Vouches(s.run.from, s.run.to, journal, main)
  }

  lemma ValidExactlyWhenVouched(fs: Fs, from: Path, to: Path)
    requires Now(fs, DbFile(from, Main)).Some? && to != from && !StartsWith(to, from)
    ensures Validate(fs, from, to).None? <==> Vouches(from, to, Now(fs, Journal), Now(fs, DbFile(to, Main)))
  {
  }

  /** A power cut after which the pointer still names the old folder can be resumed from, whatever
      else it leaves, if and only if no state of the partial copy's log that may come back carries
      anything and the journal vouches for whatever may come back at the final name. */
  lemma PowerCutIsResumableExactly(s: State)
    requires Inv(s) && BeforeSwap(s.run.phase) && FoldersApart(s)
    ensures (forall cut :: CutOf(s.fs, cut) && Resolve(Cut(s, cut)) == s.run.from ==> Ready(Cut(s, cut), s.run.to))
       <==> Silent(s.fs, Partial(s.run.to, Wal)) && Vouched(s)
  {
    TargetFreeOrOwn(s);
    if !Silent(s.fs, Partial(s.run.to, Wal)) {
      var f :| f in OnDisk(s.fs, Partial(s.run.to, Wal)) && !BlankLog(f);
      StaleCut(s, f);
    } else if !Vouched(s) {
      var journal, main :| journal in OnDisk(s.fs, Journal) && main in OnDisk(s.fs, DbFile(s.run.to, Main))
        && !Vouches(s.run.from, s.run.to, journal, main);
      InvIsSafe(s);
      RefusedCut(s, journal, main);
      RefusedIsNotReady(s, CutBoth(s, journal, main));
    } else {
      forall cut | CutOf(s.fs, cut) && Resolve(Cut(s, cut)) == s.run.from
        ensures Ready(Cut(s, cut), s.run.to)
      {
        CutIsReady(s, cut);
      }
    }
  }

  /** The old log comes back. */
  lemma StaleCut(s: State, f: File)
    requires f in OnDisk(s.fs, Partial(s.run.to, Wal)) && !BlankLog(f) && Resolve(s) == s.run.from
    ensures CutOf(s.fs, CutAt(s.fs, Partial(s.run.to, Wal), f))
    ensures Resolve(Cut(s, CutAt(s.fs, Partial(s.run.to, Wal), f))) == s.run.from
    ensures !Ready(Cut(s, CutAt(s.fs, Partial(s.run.to, Wal), f)), s.run.to)
  {
    CutAtIsCut(s.fs, Partial(s.run.to, Wal), f);
    LogIsNotReady(Cut(s, CutAt(s.fs, Partial(s.run.to, Wal), f)), s.run.to);
  }

  lemma LogIsNotReady(s: State, to: Path)
    requires !BlankLog(Now(s.fs, Partial(to, Wal)))
    ensures !Ready(s, to)
  {
  }

  /** A copy comes back that the journal found does not vouch for. */
  function CutBoth(s: State, journal: File, main: File): Fs {
    map id | id in s.fs ::
      if id == Journal then Slot(journal, {journal})
      else if id == DbFile(s.run.to, Main) then Slot(main, {main})
      else Slot(Now(s.fs, id), {Now(s.fs, id)})
  }

  lemma RefusedCut(s: State, journal: File, main: File)
    requires Rooted(s.fs, s.run.from) && PreSwap(s)
    requires journal in OnDisk(s.fs, Journal) && main in OnDisk(s.fs, DbFile(s.run.to, Main))
    requires !Vouches(s.run.from, s.run.to, journal, main)
    ensures CutOf(s.fs, CutBoth(s, journal, main))
    ensures Resolve(Cut(s, CutBoth(s, journal, main))) == s.run.from
    ensures Validate(CutBoth(s, journal, main), s.run.from, s.run.to) == Some(TargetHasDatabase)
  {
    CutBothIsCut(s, journal, main);
    RefusedValidate(s, CutBoth(s, journal, main), journal, main);
  }

  lemma RefusedIsNotReady(s: State, cut: Fs)
    requires Resolve(Cut(s, cut)) == s.run.from && Validate(cut, s.run.from, s.run.to).Some?
    ensures !Ready(Cut(s, cut), s.run.to)
  {
  }

  lemma RefusedValidate(s: State, cut: Fs, journal: File, main: File)
    requires Rooted(s.fs, s.run.from) && PreSwap(s) && !Vouches(s.run.from, s.run.to, journal, main)
    requires Now(cut, Journal) == journal && Now(cut, DbFile(s.run.to, Main)) == main
    requires Now(cut, DbFile(s.run.from, Main)) == Now(s.fs, DbFile(s.run.from, Main))
    ensures Validate(cut, s.run.from, s.run.to) == Some(TargetHasDatabase)
  {
    ValidExactlyWhenVouched(cut, s.run.from, s.run.to);
  }

  lemma CutBothIsCut(s: State, journal: File, main: File)
    requires journal in OnDisk(s.fs, Journal) && main in OnDisk(s.fs, DbFile(s.run.to, Main))
    ensures CutOf(s.fs, CutBoth(s, journal, main))
    ensures Now(CutBoth(s, journal, main), Journal) == journal
    ensures Now(CutBoth(s, journal, main), DbFile(s.run.to, Main)) == main
    ensures forall id :: id != Journal && id != DbFile(s.run.to, Main) ==>
      Now(CutBoth(s, journal, main), id) == Now(s.fs, id)
  {
  }

  lemma CutIsReady(s: State, cut: Fs)
    requires Inv(s) && PreSwap(s) && FoldersApart(s) && CutOf(s.fs, cut) && Resolve(Cut(s, cut)) == s.run.from
    requires Silent(s.fs, Partial(s.run.to, Wal)) && Vouched(s)
    ensures Ready(Cut(s, cut), s.run.to)
  {
    PowerCutKeeps(s, cut);
    CutFacts(s, cut, Cut(s, cut));
    ReadyAfterCut(s, cut, Cut(s, cut));
  }

  lemma CutFacts(s: State, cut: Fs, t: State)
    requires PointerWhole(s) && CutOf(s.fs, cut) && t == Cut(s, cut)
    ensures t.fs == cut && t.run.phase.Idle? && t.config == s.config
    ensures Options(t) == {Resolve(t)} && Resolve(t) in Options(s)
  {
    CutOptions(s, cut);
  }

  lemma ReadyAfterCut(s: State, cut: Fs, t: State)
    requires PreSwap(s) && FoldersApart(s) && CutOf(s.fs, cut) && Silent(s.fs, Partial(s.run.to, Wal)) && Vouched(s)
    requires Inv(t) && t.fs == cut && t.run.phase.Idle? && t.config == s.config && Resolve(t) == s.run.from
    requires Options(t) == {Resolve(t)} && Resolve(t) in Options(s)
    ensures Ready(t, s.run.to)
  {
    InvIsSafe(t);
    CutIsVouched(s, cut);
    FewerFolders(Options(s) + {s.run.to}, Options(t) + {s.run.to}, s.config);
    CutLogs(s, cut);
    ReadyWhen(t, s.run.to);
  }

  lemma CutIsVouched(s: State, cut: Fs)
    requires CutOf(s.fs, cut) && Vouched(s)
    ensures Vouches(s.run.from, s.run.to, Now(cut, Journal), Now(cut, DbFile(s.run.to, Main)))
  {
    CutFolders(s, cut);
    assert Now(cut, Journal) in OnDisk(s.fs, Journal);
    assert Now(cut, DbFile(s.run.to, Main)) in OnDisk(s.fs, DbFile(s.run.to, Main));
  }

  lemma ReadyWhen(t: State, to: Path)
    requires Inv(t) && Safe(t) && t.run.phase.Idle? && to != Resolve(t) && !StartsWith(to, Resolve(t))
    requires Vouches(Resolve(t), to, Now(t.fs, Journal), Now(t.fs, DbFile(to, Main)))
    requires Placed(Options(t) + {to}, t.config)
    requires Blank(t.fs, DbFile(to, Wal)) && BlankLog(Now(t.fs, Partial(to, Wal)))
    ensures Ready(t, to)
  {
    ValidExactlyWhenVouched(t.fs, Resolve(t), to);
  }

  lemma CutLogs(s: State, cut: Fs)
    requires PreSwap(s) && CutOf(s.fs, cut) && Silent(s.fs, Partial(s.run.to, Wal))
    ensures Blank(cut, DbFile(s.run.to, Wal)) && BlankLog(Now(cut, Partial(s.run.to, Wal)))
  {
    CutFolders(s, cut);
    assert Now(cut, DbFile(s.run.to, Wal)) in OnDisk(s.fs, DbFile(s.run.to, Wal));
    assert Now(cut, Partial(s.run.to, Wal)) in OnDisk(s.fs, Partial(s.run.to, Wal));
  }

  lemma FewerFolders(dirs: set<Path>, fewer: set<Path>, config: Path)
    requires Placed(dirs, config) && fewer <= dirs
    ensures Placed(fewer, config)
  {
  }

  // ----- when the two conditions hold -----

  /** On a first attempt - the target's final name was durably free - whatever comes back there is
      vouched for, at every step before the swap. */
  lemma FirstAttemptIsVouched(s: State)
    requires PhaseOk(s) && BeforeSwap(s.run.phase) && !s.run.dirty
    ensures Vouched(s)
  {
  }

  /** Once the copy's arrival is on disk, every power cut can be resumed from. */
  lemma ArrivedIsResumable(s: State)
    requires PhaseOk(s) && (s.run.phase.WritingTmp? || s.run.phase.Swapping?)
    ensures Silent(s.fs, Partial(s.run.to, Wal)) && Vouched(s)
  {
  }

  /** The journal is being replaced while an earlier copy's removal may still be undone. */
  predicate JournalWindow(p: Phase) {
    (p.Journaling? && p.stage >= 1) || p.Finalising? || p.SyncingTarget?
  }

  /** A resumed run removes its earlier copy without syncing the directory, then replaces the only
      record that vouched for it. From then on whatever comes back is vouched for exactly when the
      removal has reached the disk. */
  lemma VouchedExactlyWhenTheRemovalIsDurable(s: State)
    requires PhaseOk(s) && JournalWindow(s.run.phase)
    ensures Vouched(s) <==> !RemovalPending(s)
  {
    if RemovalPending(s) {
      var f :| f in OnDisk(s.fs, DbFile(s.run.to, Main)) && f !in {None, Now(s.fs, DbFile(s.run.to, Main))};
      EarlierCopyIsUnvouched(s, f);
      assert Now(s.fs, Journal) in OnDisk(s.fs, Journal);
    }
  }

  lemma EarlierCopyIsUnvouched(s: State, f: File)
    requires PhaseOk(s) && JournalWindow(s.run.phase)
    requires f in OnDisk(s.fs, DbFile(s.run.to, Main)) && f !in {None, Now(s.fs, DbFile(s.run.to, Main))}
    ensures !Vouches(s.run.from, s.run.to, Now(s.fs, Journal), f)
  {
    assert f != Some(Database(Copy(s)));
    assert Now(s.fs, Journal) == Some(OwnJournal(s)) || Now(s.fs, Journal) == Some(Torn);
  }

  /** Until the journal is replaced, a resumed run loses nothing the journal vouched for. */
  lemma VouchedUntilTheJournal(s: State, step: Step)
    requires Inv(s) && BeforeSwap(s.run.phase) && (Copying(s.run.phase) || s.run.phase.Auditing?)
    requires IsMover(step) && MoverEnabled(s, step) && Vouched(s)
    ensures Vouched(MoverRaw(s, step))
  {
    var s' := MoverRaw(s, step);
    MoverSource(s, step);
    MoverLeavesRecords(s, step);
  }

  lemma MoverLeavesRecords(s: State, step: Step)
    requires IsMover(step) && MoverEnabled(s, step) && (Copying(s.run.phase) || s.run.phase.Auditing?)
    requires s.run.from != s.run.to
    ensures At(MoverRaw(s, step).fs, Journal) == At(s.fs, Journal)
    ensures OnDisk(MoverRaw(s, step).fs, DbFile(s.run.to, Main)) <= OnDisk(s.fs, DbFile(s.run.to, Main)) + {None}
  {
    if step.Next? {
      NextTouches(s);
      if s.run.phase == Cleaning(Main) {
        assert MoverNext(s) == CleanNext(s, Main);
      } else {
        assert At(MoverNext(s).fs, DbFile(s.run.to, Main)) == At(s.fs, DbFile(s.run.to, Main));
      }
    }
  }

  // ----- when they do not -----

  /** Every resumed run starts by making an earlier copy's removal pending. */
  lemma CleaningLeavesTheRemovalPending(s: State)
    requires AtCleaning(s, Main) && s.run.phase == Cleaning(Main)
    ensures RemovalPending(CleanNext(s, Main))
  {
    assert Now(s.fs, DbFile(s.run.to, Main)) in OnDisk(CleanNext(s, Main).fs, DbFile(s.run.to, Main));
  }

  /** And it stays pending, whoever takes the next step of the run, until the target directory is
      synced - unless the kernel happens to write that one entry back. */
  lemma RemovalStaysPending(s: State, step: Step)
    requires Inv(s) && Covered(s, step) && RemovalPending(s)
    requires BeforeSync(s.run.phase) && !(s.run.phase.SyncingTarget? && step.Next?)
    requires !(s.run.phase.Cleaning? && s.run.phase.part.Main?)
    requires step != Flush(DbFile(s.run.to, Main)) && !step.PowerCut?
    ensures RemovalPending(Apply(s, step))
  {
    var f :| f in OnDisk(s.fs, DbFile(s.run.to, Main)) && f !in {None, Now(s.fs, DbFile(s.run.to, Main))};
    if IsMover(step) {
      MoverSource(s, step);
      MoverKeepsReturn(s, step, f);
      MayReturn(MoverRaw(s, step), s.run.to, f);
    } else {
      WorldKeepsReturn(s, step, f);
    }
  }

  lemma WorldKeepsReturn(s: State, step: Step, f: File)
    requires Inv(s) && BeforeSync(s.run.phase)
    requires !IsMover(step) && WorldEnabled(s, step) && !step.PowerCut? && step != Flush(DbFile(s.run.to, Main))
    requires f in OnDisk(s.fs, DbFile(s.run.to, Main)) && f !in {None, Now(s.fs, DbFile(s.run.to, Main))}
    ensures RemovalPending(WorldRaw(s, step))
  {
    TargetFreeOrOwn(s);
    ResolveIsOption(s);
    WorldKeepsTarget(s, step);
    MayReturn(WorldRaw(s, step), s.run.to, f);
  }

  lemma MayReturn(s: State, to: Path, f: File)
    requires s.run.to == to && f in OnDisk(s.fs, DbFile(to, Main)) && f !in {None, Now(s.fs, DbFile(to, Main))}
    ensures RemovalPending(s)
  {
  }

  /** A resumed run from the removal of its earlier copy on: nobody cuts the power, the kernel does not
      write back that one entry, and the target directory has not been synced yet. */
  ghost predicate Resumed(states: seq<State>, steps: seq<Step>, n: nat) {
    && IsRun(states, steps) && Inv(states[0]) && 1 <= n < |states|
    && states[0].run.phase == Cleaning(Main) && steps[0] == Next && FoldersApart(states[0])
    && (forall i :: 1 <= i <= n ==> BeforeSync(states[i].run.phase))
    && (forall i :: 0 <= i < n ==> !steps[i].PowerCut? && steps[i] != Flush(DbFile(states[0].run.to, Main)))
  }

  /** The removal is pending all along, and nothing starts the cleaning again. */
  ghost predicate StillPending(s: State, to: Path) {
    Inv(s) && RemovalPending(s) && FoldersApart(s) && s.run.to == to && s.run.phase != Cleaning(Main)
  }

  lemma {:induction false} ResumedStaysPending(states: seq<State>, steps: seq<Step>, n: nat)
    requires Resumed(states, steps, n)
    ensures StillPending(states[n], states[0].run.to)
  {
    ResumedStep(states, steps, n);
    if n == 1 {
      FirstRemovalPends(states[0]);
    } else {
      ResumedStaysPending(states, steps, n - 1);
      StepStaysPending(states[n - 1], steps[n - 1], states[0].run.to);
    }
  }

  lemma ResumedStep(states: seq<State>, steps: seq<Step>, n: nat)
    requires Resumed(states, steps, n)
    ensures Covered(states[n - 1], steps[n - 1]) && states[n] == Apply(states[n - 1], steps[n - 1])
    ensures n > 1 ==> Resumed(states, steps, n - 1)
  {
  }

  lemma FirstRemovalPends(s: State)
    requires Inv(s) && s.run.phase == Cleaning(Main) && FoldersApart(s)
    ensures Covered(s, Next) && StillPending(Apply(s, Next), s.run.to)
  {
    StepKeeps(s, Next);
    assert AtCleaning(s, Main) && MoverNext(s) == CleanNext(s, Main);
    CleaningLeavesTheRemovalPending(s);
    FoldersStayApart(s, Next);
  }

  lemma StepStaysPending(s: State, step: Step, to: Path)
    requires StillPending(s, to) && Covered(s, step) && BeforeSync(s.run.phase)
    requires !step.PowerCut? && step != Flush(DbFile(to, Main)) && BeforeSync(Apply(s, step).run.phase)
    ensures StillPending(Apply(s, step), to)
  {
    StepKeeps(s, step);
    NoSecondCleaning(s, step);
    FoldersStayApart(s, step);
    FoldersSettle(s, step);
    RemovalStaysPending(s, step);
  }

  /** Once a run is under way it does not come back to the start of the cleaning. */
  lemma NoSecondCleaning(s: State, step: Step)
    requires Covered(s, step) && BeforeSync(s.run.phase) && s.run.phase != Cleaning(Main)
    requires !step.PowerCut? && BeforeSync(Apply(s, step).run.phase)
    ensures Apply(s, step).run.phase != Cleaning(Main) && !step.Begin?
    ensures !(s.run.phase.SyncingTarget? && step.Next?)
  {
    if IsMover(step) {
      MoverGoesOnward(s, step);
    } else {
      assert WorldRaw(s, step).run == s.run;
    }
  }

  lemma MoverGoesOnward(s: State, step: Step)
    requires IsMover(step) && MoverEnabled(s, step) && BeforeSync(s.run.phase) && s.run.phase != Cleaning(Main)
    ensures MoverRaw(s, step).run.phase != Cleaning(Main) && !step.Begin?
    ensures s.run.phase.SyncingTarget? && step.Next? ==> MoverRaw(s, step).run.phase == WritingTmp(0)
  {
    if step.Next? {
      NextGoesOnward(s);
    }
  }

  lemma NextGoesOnward(s: State)
    requires MoverEnabled(s, Next) && BeforeSync(s.run.phase)
    ensures MoverNext(s).run.phase != Cleaning(Main)
    ensures s.run.phase.SyncingTarget? ==> MoverNext(s).run.phase == WritingTmp(0)
  {
    match s.run.phase {
      case Journaling(stage) => assert MoverNext(s) == JournalNext(s, stage);
      case Finalising => assert MoverNext(s) == Finalise(s);
      case SyncingTarget => assert MoverNext(s) == SyncTarget(s);
      case _ => CopyingGoesOnward(s);
    }
  }

  lemma CopyingGoesOnward(s: State)
    requires MoverEnabled(s, Next) && Copying(s.run.phase)
    ensures MoverNext(s).run.phase != Cleaning(Main)
  {
    match s.run.phase {
      case Cleaning(part) => assert MoverNext(s) == CleanNext(s, part);
      case CopyingDb(stage) => assert MoverNext(s) == CopyDbNext(s, stage);
      case CopyingDoc(todo, rel, stage) => assert MoverNext(s) == CopyDocNext(s, todo, rel, stage);
      case _ =>
    }
  }

  /** So whenever such a run has come to replacing its journal, some power cut leaves a state the move
      cannot be started from again. */
  lemma ResumedRunCanBeRefused(states: seq<State>, steps: seq<Step>, n: nat)
    requires Resumed(states, steps, n) && JournalWindow(states[n].run.phase)
    ensures exists cut :: CutOf(states[n].fs, cut) && Resolve(Cut(states[n], cut)) == states[n].run.from
                       && !Ready(Cut(states[n], cut), states[n].run.to)
  {
    ResumedStaysPending(states, steps, n);
    VouchedExactlyWhenTheRemovalIsDurable(states[n]);
    PowerCutIsResumableExactly(states[n]);
  }

  predicate BeforeSync(p: Phase) {
    BeforeSwap(p) && !p.WritingTmp? && !p.Swapping?
  }

  lemma WorldKeepsTarget(s: State, step: Step)
    requires Inv(s) && s.run.to != Resolve(s) && !s.run.phase.Idle?
    requires !IsMover(step) && WorldEnabled(s, step) && !step.PowerCut? && step != Flush(DbFile(s.run.to, Main))
    ensures At(WorldRaw(s, step).fs, DbFile(s.run.to, Main)) == At(s.fs, DbFile(s.run.to, Main))
    ensures WorldRaw(s, step).run == s.run
  {
    if step.Commit? {
      assert s.conns[step.pid] == Resolve(s);
      CommitFiles(s.fs, Resolve(s), step.rows, step.papers);
    }
  }

  /** The final name only ever takes the new copy, and the old one may still come back. */
  lemma MoverKeepsReturn(s: State, step: Step, f: File)
    requires PhaseOk(s) && IsMover(step) && MoverEnabled(s, step) && BeforeSync(s.run.phase)
    requires !(s.run.phase.SyncingTarget? && step.Next?) && !(s.run.phase.Cleaning? && s.run.phase.part.Main?)
    requires f in OnDisk(s.fs, DbFile(s.run.to, Main)) && f !in {None, Now(s.fs, DbFile(s.run.to, Main))}
    ensures f in OnDisk(MoverRaw(s, step).fs, DbFile(s.run.to, Main))
    ensures f != Now(MoverRaw(s, step).fs, DbFile(s.run.to, Main))
  {
    if !step.Next? {
      assert At(MoverRaw(s, step).fs, DbFile(s.run.to, Main)) == At(s.fs, DbFile(s.run.to, Main));
    } else if s.run.phase.Finalising? {
      FinalisedReturn(s, f);
    } else {
      NextLeavesFinalName(s);
    }
  }

  lemma NextLeavesFinalName(s: State)
    requires PhaseOk(s) && MoverEnabled(s, Next) && BeforeSync(s.run.phase) && !s.run.phase.SyncingTarget?
    requires !(s.run.phase.Cleaning? && s.run.phase.part.Main?) && !s.run.phase.Finalising?
    ensures At(MoverNext(s).fs, DbFile(s.run.to, Main)) == At(s.fs, DbFile(s.run.to, Main))
  {
    TargetFreeOrOwn(s);
    NextTouches(s);
    assert !Touches(s, DbFile(s.run.to, Main)) && !Settles(s, DbFile(s.run.to, Main));
  }

  lemma FinalisedReturn(s: State, f: File)
    requires s.run.phase.Finalising? && AtFinalising(s)
    requires f in OnDisk(s.fs, DbFile(s.run.to, Main)) && f !in {None, Now(s.fs, DbFile(s.run.to, Main))}
    ensures f in OnDisk(MoverNext(s).fs, DbFile(s.run.to, Main))
    ensures f != Now(MoverNext(s).fs, DbFile(s.run.to, Main))
  {
    assert MoverNext(s) == Finalise(s);
  }

  /** Closing the copy deletes its log without syncing the directory: right after it a power cut can
      bring the log back. */
  lemma ClosedLogMayReturn(s: State)
    requires Inv(s) && s.run.phase.Closing?
    ensures !Silent(Apply(s, Next).fs, Partial(s.run.to, Wal)) && !LogOpen(Apply(s, Next))
  {
    var f := Now(s.fs, Partial(s.run.to, Wal));
    assert AtClosing(s);
    assert f in OnDisk(Apply(s, Next).fs, Partial(s.run.to, Wal)) && !BlankLog(f);
  }

  /** It can do so until the target directory is synced. */
  lemma LogMayReturnUntilTheSync(s: State, step: Step)
    requires Inv(s) && IsMover(step) && MoverEnabled(s, step) && !Silent(s.fs, Partial(s.run.to, Wal))
    requires s.run.phase.Journaling? || s.run.phase.Finalising? || (s.run.phase.SyncingTarget? && !step.Next?)
    ensures !Silent(MoverRaw(s, step).fs, Partial(s.run.to, Wal))
  {
    var f :| f in OnDisk(s.fs, Partial(s.run.to, Wal)) && !BlankLog(f);
    assert MoverRaw(s, step).run.to == s.run.to by {
      MoverSource(s, step);
    }
    if step.Next? {
      ReturnStays(s, f);
    }
    assert f in OnDisk(MoverRaw(s, step).fs, Partial(s.run.to, Wal));
  }

  lemma ReturnStays(s: State, f: File)
    requires s.run.phase.Journaling? || s.run.phase.Finalising?
    requires f in OnDisk(s.fs, Partial(s.run.to, Wal))
    ensures f in OnDisk(MoverNext(s).fs, Partial(s.run.to, Wal))
  {
    NextTouches(s);
    assert At(MoverNext(s).fs, Partial(s.run.to, Wal)) == At(s.fs, Partial(s.run.to, Wal));
  }
}
