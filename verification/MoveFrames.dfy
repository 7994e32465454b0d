/**
 Which files one step of the move changes, and which part of its plan: stated once, phase by phase,
 for everything that follows.
 */
module MoveFrames {
  import opened Wrappers
  import opened Paths
  import opened Books
  import opened Disk
  import opened Move
  import opened MoveInvariant
  import opened MoveWorld

  /** The files the next step may write, rename or remove. */
  predicate Touches(s: State, id: FileId) {
    var from, to := s.run.from, s.run.to;
    match s.run.phase
    case Cleaning(part) => id == DbFile(to, part)
    case Locking => id == DbFile(from, Main) || id == DbFile(from, Wal)
    case CopyingDb(_) => id == Partial(to, Main)
    case CopyingDoc(_, rel, _) => id == Doc(to, rel)
    case Closing => id == Partial(to, Main) || id == Partial(to, Wal)
    case Journaling(stage) => stage < 3 && id == Journal
    case Finalising => id == DbFile(to, Main) || id == Partial(to, Main)
    case WritingTmp(_) => id == PointerTmp
    case Swapping => id == Pointer || id == PointerTmp
    case Deleting(part) => id == DbFile(from, part)
    case DeletingJournal => id == Journal
    case _ => false
  }

  /** The directory it syncs instead. */
  function Syncs(s: State): Option<Directory> {
    match s.run.phase
    case Journaling(stage) => if stage < 3 then None else Some(Config)
    case SyncingTarget => Some(Folder(s.run.to))
    case SyncingConfig => Some(Config)
    case _ => None
  }

  predicate Settles(s: State, id: FileId) {
    Syncs(s).Some? && Inside(id, Syncs(s).value)
  }

  /** Nothing else changes: a file is as it was, or as the sync of its directory leaves it. */
  lemma NextTouches(s: State)
    requires MoverEnabled(s, Next)
    ensures forall id :: !Touches(s, id) && !Settles(s, id) ==> At(MoverNext(s).fs, id) == At(s.fs, id)
    ensures forall id :: !Touches(s, id) && Settles(s, id) ==> At(MoverNext(s).fs, id) == Settle(At(s.fs, id))
    ensures forall id :: !Touches(s, id) ==> NoWorse(s.fs, MoverNext(s).fs, id)
  {
    if Copying(s.run.phase) {
      CopyingTouches(s);
    } else if Syncs(s).Some? {
      SyncTouches(s);
    } else {
      CommitTouches(s);
    }
  }

  lemma CopyingTouches(s: State)
    requires MoverEnabled(s, Next) && Copying(s.run.phase)
    ensures forall id :: !Touches(s, id) ==> At(MoverNext(s).fs, id) == At(s.fs, id)
  {
    match s.run.phase {
      case Cleaning(part) => assert MoverNext(s) == CleanNext(s, part);
      case CopyingDb(stage) => assert MoverNext(s) == CopyDbNext(s, stage);
      case CopyingDoc(todo, rel, stage) => assert MoverNext(s) == CopyDocNext(s, todo, rel, stage);
      case _ =>
    }
  }

  lemma SyncTouches(s: State)
    requires Syncs(s).Some?
    ensures forall id :: !Settles(s, id) ==> At(MoverNext(s).fs, id) == At(s.fs, id)
    ensures forall id :: Settles(s, id) ==> At(MoverNext(s).fs, id) == Settle(At(s.fs, id))
    ensures forall id :: NoWorse(s.fs, MoverNext(s).fs, id)
  {
    SyncOthers(s.fs, Config);
    SyncOthers(s.fs, Folder(s.run.to));
    match s.run.phase {
      case Journaling(stage) => assert MoverNext(s) == JournalNext(s, stage);
      case SyncingTarget => assert MoverNext(s) == SyncTarget(s);
      case SyncingConfig => assert MoverNext(s) == SyncConfig(s);
    }
  }

  lemma CommitTouches(s: State)
    requires MoverEnabled(s, Next) && !Copying(s.run.phase) && Syncs(s).None?
    ensures forall id :: !Touches(s, id) ==> At(MoverNext(s).fs, id) == At(s.fs, id)
  {
    match s.run.phase {
      case Journaling(stage) => assert MoverNext(s) == JournalNext(s, stage);
      case Finalising => assert MoverNext(s) == Finalise(s);
      case WritingTmp(stage) => assert MoverNext(s) == TmpNext(s, stage);
      case Swapping => assert MoverNext(s) == Swap(s);
      case _ =>
    }
  }

  // ----- the plan -----

  /** What a step leaves of the plan: always where from and where to; the content and the documents
      once they are fixed; every count once it is complete. */
  predicate PlanKept(s: State, s': State) {
    && s'.run.from == s.run.from && s'.run.to == s.run.to && s'.run.auditId == s.run.auditId
    && s'.run.oldRemoved == s.run.oldRemoved && s'.run.rewritten == s.run.rewritten
    && (!s.run.phase.Locking? ==> s'.run.src == s.run.src && s'.run.store == s.run.store)
    && (!s.run.phase.CopyingDb? && !s.run.phase.CopyingDoc? ==> s'.run.copied == s.run.copied)
    && s'.fallback == s.fallback && s'.config == s.config && s'.conns == s.conns
    && (!s.run.phase.Swapping? ==> s'.past == s.past)
  }

  lemma NextKeepsPlan(s: State)
    requires MoverEnabled(s, Next)
    ensures PlanKept(s, MoverNext(s))
  {
    if Copying(s.run.phase) {
      CopyingKeepsPlan(s);
    } else {
      CommitKeepsPlan(s);
    }
  }

  /** Only the files and the phase differ. */
  predicate Advanced(s: State, s': State) {
    s' == s.(fs := s'.fs, run := s.run.(phase := s'.run.phase))
  }

  lemma CopyingKeepsPlan(s: State)
    requires MoverEnabled(s, Next) && Copying(s.run.phase)
    ensures PlanKept(s, MoverNext(s))
  {
    match s.run.phase {
      case Cleaning(part) => assert MoverNext(s) == CleanNext(s, part);
      case Locking => assert MoverNext(s) == LockAndFold(s, ContentOf(s.fs, s.run.from).value);
      case CopyingDb(stage) => CopyDbPlan(s, stage);
      case CopyingDoc(todo, rel, stage) => CopyDocPlan(s, todo, rel, stage);
      case CopyingDocs(_) => assert MoverNext(s) == OpenCopy(s, PartialView(s.fs, s.run.to).value);
      case Rewriting(_) => assert MoverNext(s) == Goto(s, s.fs, Auditing);
      case Closing => assert MoverNext(s).run == s.run.(phase := Journaling(0));
    }
  }

  lemma CopyDbPlan(s: State, stage: nat)
    requires s.run.phase == CopyingDb(stage)
    ensures PlanKept(s, MoverNext(s))
  {
    assert MoverNext(s) == CopyDbNext(s, stage);
  }

  lemma CopyDocPlan(s: State, todo: set<Path>, rel: Path, stage: nat)
    requires s.run.phase == CopyingDoc(todo, rel, stage)
    ensures PlanKept(s, MoverNext(s))
  {
    assert MoverNext(s) == CopyDocNext(s, todo, rel, stage);
  }

  lemma CommitKeepsPlan(s: State)
    requires MoverEnabled(s, Next) && !Copying(s.run.phase)
    ensures PlanKept(s, MoverNext(s))
  {
    if Clearing(s.run.phase) {
      assert MoverNext(s) == MoverNext(s).(run := s.run.(phase := MoverNext(s).run.phase));
    } else if s.run.phase.Swapping? {
      assert MoverNext(s) == Swap(s);
    } else {
      WindowAdvances(s);
    }
  }

  lemma WindowAdvances(s: State)
    requires MoverEnabled(s, Next) && !Copying(s.run.phase) && !Clearing(s.run.phase) && !s.run.phase.Swapping?
    ensures Advanced(s, MoverNext(s))
  {
    match s.run.phase {
      case Journaling(stage) => assert MoverNext(s) == JournalNext(s, stage);
      case WritingTmp(stage) => assert MoverNext(s) == TmpNext(s, stage);
      case Finalising => assert MoverNext(s) == Finalise(s);
      case SyncingTarget => assert MoverNext(s) == SyncTarget(s);
      case SyncingConfig => assert MoverNext(s) == SyncConfig(s);
    }
  }
}
