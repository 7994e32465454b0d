/**
 A log left beside the partial copy by a crash in the localising pass: the next run replays it, and
 what was committed in between comes out of the move as it was before.
 */
module MoveStale {
  import opened Wrappers
  import opened Paths
  import opened Books
  import opened Disk
  import opened Move
  import opened MoveInvariant
  import opened MoveWorld
  import opened MoveRuns
  import opened MoveForeign
  import opened MoveResume
  import opened MoveHazards
  import opened MoveFiles

  /** A leftover log is replayed over the fresh copy, so the copy opens as the source exactly
      when the log says nothing the source does not already say. */
  lemma StaleLogIsReplayed(s: State)
    requires Holds(s.fs, Partial(s.run.to, Main), Database(s.run.src))
    ensures PartialView(s.fs, s.run.to) == Some(s.run.src + LogOver(Now(s.fs, Partial(s.run.to, Wal))))
    ensures PartialView(s.fs, s.run.to) == Some(s.run.src) <==>
      forall k :: k in LogOver(Now(s.fs, Partial(s.run.to, Wal))) ==>
        k in s.run.src && s.run.src[k] == LogOver(Now(s.fs, Partial(s.run.to, Wal)))[k]
  {
    var w := LogOver(Now(s.fs, Partial(s.run.to, Wal)));
    assert s.run.src + map[] == s.run.src;
    if s.run.src + w == s.run.src {
      forall k | k in w
        ensures k in s.run.src && s.run.src[k] == w[k]
      {
        assert (s.run.src + w)[k] == w[k];
      }
    }
    assert (forall k :: k in w ==> k in s.run.src && s.run.src[k] == w[k]) ==> s.run.src + w == s.run.src;
  }

  // ----- a run over a stale log -----

  /** The log beside the partial copy sets row `k` to `v`. */
  predicate Logs(fs: Fs, to: Path, k: Key, v: Value) {
    k in LogOver(Now(fs, Partial(to, Wal))) && LogOver(Now(fs, Partial(to, Wal)))[k] == v
  }

  /** The file is a database in which row `k` is `v`. */
  predicate Sets(f: File, k: Key, v: Value) {
    f.Some? && f.value.Database? && k in f.value.db && f.value.db[k] == v
  }

  /** However far the run has come, `v` is on its way to being what the new folder says of row `k`. */
  predicate Stale(s: State, k: Key, v: Value) {
    && s.run.from != s.run.to && k.Entry? && !InStore(v, s.run.from)
    && BlankLog(Now(s.fs, DbFile(s.run.to, Wal)))
    && match s.run.phase
       case Locking =>
         && Logs(s.fs, s.run.to, k, v) && s.lock.None?
         && s.run.from !in s.conns.Values && ContentOf(s.fs, s.run.from).Some?
       case CopyingDb(stage) =>
         && Logs(s.fs, s.run.to, k, v) && stage <= 2
         && (stage == 2 ==> Now(s.fs, Partial(s.run.to, Main)) == Some(Database(s.run.src)))
       case CopyingDocs(_) =>
         Logs(s.fs, s.run.to, k, v) && Now(s.fs, Partial(s.run.to, Main)) == Some(Database(s.run.src))
       case CopyingDoc(todo, rel, stage) =>
         && Logs(s.fs, s.run.to, k, v) && Now(s.fs, Partial(s.run.to, Main)) == Some(Database(s.run.src))
         && rel in todo && stage <= 2
       case Rewriting(left) =>
         && Logs(s.fs, s.run.to, k, v) && k !in left
         && PartialView(s.fs, s.run.to).Some? && left <= PartialView(s.fs, s.run.to).value.Keys
       case Auditing => Logs(s.fs, s.run.to, k, v) && PartialView(s.fs, s.run.to).Some?
       case Closing => Logs(s.fs, s.run.to, k, v) && PartialView(s.fs, s.run.to).Some?
       case Journaling(stage) => Sets(Now(s.fs, Partial(s.run.to, Main)), k, v) && stage <= 3
       case Finalising => Sets(Now(s.fs, Partial(s.run.to, Main)), k, v)
       case SyncingTarget => Sets(Now(s.fs, DbFile(s.run.to, Main)), k, v)
       case WritingTmp(stage) =>
         && Sets(Now(s.fs, DbFile(s.run.to, Main)), k, v) && stage <= 2
         && (stage == 2 ==> Now(s.fs, PointerTmp) == Some(PointerTo(s.run.to)))
       case Swapping =>
         Sets(Now(s.fs, DbFile(s.run.to, Main)), k, v) && Now(s.fs, PointerTmp) == Some(PointerTo(s.run.to))
       case SyncingConfig =>
         Sets(Now(s.fs, DbFile(s.run.to, Main)), k, v) && Now(s.fs, Pointer) == Some(PointerTo(s.run.to))
       case _ => false
  }

  /** The run going ahead, undisturbed. */
  predicate Forward(step: Step) {
    step.Next? || step.TakeDoc? || step.TakeRow? || step.Record?
  }

  lemma StaleStep(s: State, step: Step, k: Key, v: Value)
    requires Stale(s, k, v) && Forward(step) && MoverEnabled(s, step) && !s.run.phase.SyncingConfig?
    ensures Stale(MoverRaw(s, step), k, v)
    ensures MoverRaw(s, step).run.to == s.run.to && MoverRaw(s, step).run.from == s.run.from
  {
    if step.Next? {
      if Copying(s.run.phase) {
        StaleCopyStep(s, k, v);
      } else {
        StaleCommitStep(s, k, v);
      }
    } else if step.TakeRow? {
      assert MoverRaw(s, step) == RewriteRow(s, s.run.phase.left, step.key);
      StaleRow(s, step.key, Repoint(PartialView(s.fs, s.run.to).value[step.key], s.run.from, s.run.to), k, v);
    } else if step.Record? {
      assert MoverRaw(s, step) == RecordMove(s, step.auditId);
      StaleRow(s, MoveEntry(step.auditId), Moved(s.run.from, s.run.to, s.run.rewritten), k, v);
    }
  }

  /** Logging another row leaves this one. */
  lemma StaleRow(s: State, j: Key, w: Value, k: Key, v: Value)
    requires Logs(s.fs, s.run.to, k, v) && j != k && PartialView(s.fs, s.run.to).Some?
    ensures var fs' := LogRow(s.fs, s.run.to, j, w);
      && Logs(fs', s.run.to, k, v)
      && PartialView(fs', s.run.to).Some?
      && PartialView(s.fs, s.run.to).value.Keys <= PartialView(fs', s.run.to).value.Keys
      && Now(fs', DbFile(s.run.to, Wal)) == Now(s.fs, DbFile(s.run.to, Wal))
  {
  }

  lemma StaleCopyStep(s: State, k: Key, v: Value)
    requires Stale(s, k, v) && MoverEnabled(s, Next) && Copying(s.run.phase)
    ensures Stale(MoverNext(s), k, v)
    ensures MoverNext(s).run.to == s.run.to && MoverNext(s).run.from == s.run.from
  {
    match s.run.phase {
      case Locking => StaleLock(s, k, v);
      case CopyingDb(stage) => StaleCopyDb(s, stage, k, v);
      case CopyingDoc(todo, rel, stage) => StaleCopyDoc(s, todo, rel, stage, k, v);
      case CopyingDocs(_) => StaleOpen(s, k, v);
      case Rewriting(_) => assert MoverNext(s) == Goto(s, s.fs, Auditing);
      case Closing => StaleClose(s, k, v);
    }
  }

  lemma StaleLock(s: State, k: Key, v: Value)
    requires Stale(s, k, v) && s.run.phase.Locking?
    ensures Stale(MoverNext(s), k, v)
    ensures MoverNext(s).run.to == s.run.to && MoverNext(s).run.from == s.run.from
  {
    assert MoverNext(s) == LockAndFold(s, ContentOf(s.fs, s.run.from).value);
  }

  lemma StaleCopyDb(s: State, stage: nat, k: Key, v: Value)
    requires Stale(s, k, v) && s.run.phase == CopyingDb(stage)
    ensures Stale(MoverNext(s), k, v)
    ensures MoverNext(s).run.to == s.run.to && MoverNext(s).run.from == s.run.from
  {
    var s' := MoverNext(s);
    assert s' == CopyDbNext(s, stage);
    assert Now(s'.fs, Partial(s.run.to, Wal)) == Now(s.fs, Partial(s.run.to, Wal));
    assert Now(s'.fs, DbFile(s.run.to, Wal)) == Now(s.fs, DbFile(s.run.to, Wal));
  }

  lemma StaleCopyDoc(s: State, todo: set<Path>, rel: Path, stage: nat, k: Key, v: Value)
    requires Stale(s, k, v) && s.run.phase == CopyingDoc(todo, rel, stage)
    ensures Stale(MoverNext(s), k, v)
    ensures MoverNext(s).run.to == s.run.to && MoverNext(s).run.from == s.run.from
  {
    var s' := MoverNext(s);
    assert s' == CopyDocNext(s, todo, rel, stage);
    assert Now(s'.fs, Partial(s.run.to, Main)) == Now(s.fs, Partial(s.run.to, Main));
    assert Now(s'.fs, Partial(s.run.to, Wal)) == Now(s.fs, Partial(s.run.to, Wal));
    assert Now(s'.fs, DbFile(s.run.to, Wal)) == Now(s.fs, DbFile(s.run.to, Wal));
  }

  /** The stale row is already re-pointed, so the pass does not even list it. */
  lemma StaleOpen(s: State, k: Key, v: Value)
    requires Stale(s, k, v) && s.run.phase.CopyingDocs? && PartialView(s.fs, s.run.to).Some?
    ensures Stale(MoverNext(s), k, v)
    ensures MoverNext(s).run.to == s.run.to && MoverNext(s).run.from == s.run.from
  {
    var view := PartialView(s.fs, s.run.to).value;
    assert MoverNext(s) == OpenCopy(s, view);
    assert k in view && view[k] == v;
  }

  lemma StaleClose(s: State, k: Key, v: Value)
    requires Stale(s, k, v) && s.run.phase.Closing?
    ensures Stale(MoverNext(s), k, v)
    ensures MoverNext(s).run.to == s.run.to && MoverNext(s).run.from == s.run.from
  {
    var view := PartialView(s.fs, s.run.to).value;
    assert MoverNext(s) == Goto(s, CloseCopy(s.fs, s.run.to, view), Journaling(0));
    assert k in view && view[k] == v;
  }

  lemma StaleCommitStep(s: State, k: Key, v: Value)
    requires Stale(s, k, v) && MoverEnabled(s, Next) && !Copying(s.run.phase) && !s.run.phase.SyncingConfig?
    ensures Stale(MoverNext(s), k, v)
    ensures MoverNext(s).run.to == s.run.to && MoverNext(s).run.from == s.run.from
  {
    match s.run.phase {
      case Journaling(stage) => StaleJournal(s, stage, k, v);
      case Finalising => StaleFinal(s, k, v);
      case SyncingTarget => StaleSync(s, k, v);
      case WritingTmp(stage) => StaleTmp(s, stage, k, v);
      case Swapping => StaleSwap(s, k, v);
    }
  }

  lemma StaleTmp(s: State, stage: nat, k: Key, v: Value)
    requires Stale(s, k, v) && s.run.phase == WritingTmp(stage)
    ensures Stale(MoverNext(s), k, v)
    ensures MoverNext(s).run.to == s.run.to && MoverNext(s).run.from == s.run.from
  {
    assert MoverNext(s) == TmpNext(s, stage);
  }

  lemma StaleSwap(s: State, k: Key, v: Value)
    requires Stale(s, k, v) && s.run.phase.Swapping?
    ensures Stale(MoverNext(s), k, v)
    ensures MoverNext(s).run.to == s.run.to && MoverNext(s).run.from == s.run.from
  {
    assert MoverNext(s) == Swap(s);
  }

  lemma StaleJournal(s: State, stage: nat, k: Key, v: Value)
    requires Stale(s, k, v) && s.run.phase == Journaling(stage)
    ensures Stale(MoverNext(s), k, v)
    ensures MoverNext(s).run.to == s.run.to && MoverNext(s).run.from == s.run.from
  {
    var s' := MoverNext(s);
    assert s' == JournalNext(s, stage);
    SyncOthers(s.fs, Config);
    assert Now(s'.fs, Partial(s.run.to, Main)) == Now(s.fs, Partial(s.run.to, Main));
    assert Now(s'.fs, DbFile(s.run.to, Wal)) == Now(s.fs, DbFile(s.run.to, Wal));
  }

  lemma StaleFinal(s: State, k: Key, v: Value)
    requires Stale(s, k, v) && s.run.phase.Finalising?
    ensures Stale(MoverNext(s), k, v)
    ensures MoverNext(s).run.to == s.run.to && MoverNext(s).run.from == s.run.from
  {
    assert MoverNext(s) == Finalise(s);
  }

  lemma StaleSync(s: State, k: Key, v: Value)
    requires Stale(s, k, v) && s.run.phase.SyncingTarget?
    ensures Stale(MoverNext(s), k, v)
    ensures MoverNext(s).run.to == s.run.to && MoverNext(s).run.from == s.run.from
  {
    SyncOthers(s.fs, Folder(s.run.to));
    assert MoverNext(s) == SyncTarget(s);
  }

  /** Nothing stops such a run before the swap. */
  lemma StaleRunGoesOn(s: State, k: Key, v: Value, auditId: string) returns (step: Step)
    requires Stale(s, k, v) && FreshId(s, auditId)
    ensures Forward(step) && MoverEnabled(s, step)
  {
    match s.run.phase {
      case CopyingDocs(todo) =>
        if todo == {} {
          step := Next;
        } else {
          var rel :| rel in todo;
          step := TakeDoc(rel);
        }
      case Rewriting(left) =>
        if left == {} {
          step := Next;
        } else {
          var j :| j in left;
          step := TakeRow(j);
        }
      case Auditing => step := Record(auditId);
      case _ => step := Next;
    }
  }

  /** How far the run still has to go: the stretch it is in, and what is left of that. */
  function Rank(p: Phase): nat {
    match p
    case Locking => 12
    case CopyingDb(_) => 11
    case CopyingDocs(_) => 10
    case CopyingDoc(_, _, _) => 10
    case Rewriting(_) => 9
    case Auditing => 8
    case Closing => 7
    case Journaling(_) => 6
    case Finalising => 5
    case SyncingTarget => 4
    case WritingTmp(_) => 3
    case Swapping => 2
    case _ => 0
  }

  function Size(p: Phase): int {
    match p
    case CopyingDb(stage) => 2 - stage
    case CopyingDocs(todo) => 4 * |todo|
    case CopyingDoc(todo, _, stage) => 4 * |todo| - 1 - stage
    case Rewriting(left) => |left|
    case Journaling(stage) => 3 - stage
    case WritingTmp(stage) => 2 - stage
    case _ => 0
  }

  predicate Nearer(p: Phase, q: Phase) {
    0 <= Size(p) && 0 <= Size(q) && (Rank(q) < Rank(p) || (Rank(q) == Rank(p) && Size(q) < Size(p)))
  }

  lemma StaleNearer(s: State, step: Step, k: Key, v: Value)
    requires Stale(s, k, v) && Forward(step) && MoverEnabled(s, step) && !s.run.phase.SyncingConfig?
    ensures Nearer(s.run.phase, MoverRaw(s, step).run.phase)
  {
    if step.Next? {
      NextNearer(s, k, v);
    } else if step.TakeRow? {
      assert MoverRaw(s, step) == RewriteRow(s, s.run.phase.left, step.key);
    } else if step.TakeDoc? {
      assert |s.run.phase.todo| > 0;
    }
  }

  lemma NextNearer(s: State, k: Key, v: Value)
    requires Stale(s, k, v) && MoverEnabled(s, Next) && !s.run.phase.SyncingConfig?
    ensures Nearer(s.run.phase, MoverNext(s).run.phase)
  {
    if Copying(s.run.phase) {
      CopyNearer(s);
    } else {
      CommitNearer(s);
    }
  }

  predicate InBounds(p: Phase) {
    match p
    case CopyingDb(stage) => stage <= 2
    case CopyingDoc(todo, rel, stage) => rel in todo && stage <= 2
    case Journaling(stage) => stage <= 3
    case WritingTmp(stage) => stage <= 2
    case _ => true
  }

  lemma CopyNearer(s: State)
    requires InBounds(s.run.phase) && MoverEnabled(s, Next) && Copying(s.run.phase) && !s.run.phase.Cleaning?
    ensures Nearer(s.run.phase, MoverNext(s).run.phase)
  {
    var q := MoverNext(s).run.phase;
    match s.run.phase {
      case CopyingDb(stage) => DbNearer(s, stage);
      case CopyingDoc(todo, rel, stage) => DocNearer(s, todo, rel, stage);
      case CopyingDocs(_) => assert q.Rewriting?;
      case Rewriting(_) => assert q.Auditing?;
      case Locking => assert q.CopyingDb?;
      case Closing => assert q.Journaling?;
    }
  }

  lemma DbNearer(s: State, stage: nat)
    requires s.run.phase == CopyingDb(stage) && stage <= 2
    ensures Nearer(s.run.phase, MoverNext(s).run.phase)
  {
    assert MoverNext(s) == CopyDbNext(s, stage);
  }

  lemma DocNearer(s: State, todo: set<Path>, rel: Path, stage: nat)
    requires s.run.phase == CopyingDoc(todo, rel, stage) && rel in todo && stage <= 2
    ensures Nearer(s.run.phase, MoverNext(s).run.phase)
  {
    assert MoverNext(s) == CopyDocNext(s, todo, rel, stage);
    assert |todo - {rel}| == |todo| - 1;
  }

  lemma CommitNearer(s: State)
    requires InBounds(s.run.phase) && !Copying(s.run.phase)
    requires Late(s.run.phase) || s.run.phase.Journaling? || s.run.phase.Finalising?
    ensures Nearer(s.run.phase, MoverNext(s).run.phase)
  {
    if s.run.phase.Swapping? {
      assert MoverNext(s) == Swap(s);
    } else {
      FollowingPhase(s);
      FollowingNearer(s.run.phase);
    }
  }

  lemma FollowingNearer(p: Phase)
    requires InBounds(p) && Committing(p)
    ensures Nearer(p, Following(p))
  {
  }

  // ----- fresh audit ids -----

  function RowsIn(f: File): Db {
    match f
    case Some(Database(db)) => db
    case Some(Log(over)) => over
    case _ => map[]
  }

  /** All audit ids found in any file, or in any database the move has made. */
  ghost function UsedIds(s: State): set<string> {
    (set id, f, k | id in s.fs && f in OnDisk(s.fs, id) && k in RowsIn(f) && k.MoveEntry? :: k.id)
    + (set db, k | db in s.past.made && k in db && k.MoveEntry? :: k.id)
  }

  /** There are always more. */
  lemma FreshIdExists(s: State) returns (auditId: string)
    ensures FreshId(s, auditId)
  {
    auditId := NotAmong(UsedIds(s));
    forall id, f | id in s.fs && f in OnDisk(s.fs, id)
      ensures !Mentions(f, auditId)
    {
      assert MoveEntry(auditId) in RowsIn(f) ==> MoveEntry(auditId).id in UsedIds(s);
    }
    forall db | db in s.past.made
      ensures MoveEntry(auditId) !in db
    {
      assert MoveEntry(auditId) in db ==> MoveEntry(auditId).id in UsedIds(s);
    }
  }

  lemma NotAmong(used: set<string>) returns (x: string)
    ensures x !in used
  {
    var n := LongerThanAll(used);
    x := seq(n, _ => 'a');
  }

  lemma {:induction false} LongerThanAll(used: set<string>) returns (n: nat)
    ensures forall u :: u in used ==> |u| < n
    decreases |used|
  {
    if used == {} {
      n := 0;
    } else {
      var u :| u in used;
      n := LongerThanAll(used - {u});
      n := if n <= |u| then |u| + 1 else n;
    }
  }

  /** So such a run can always be carried through to the swap. */
  lemma {:induction false} StaleRunExists(s: State, k: Key, v: Value) returns (states: seq<State>, steps: seq<Step>)
    requires Stale(s, k, v)
    ensures ForwardRun(states, steps) && states[0] == s && states[|steps|].run.phase.SyncingConfig?
    decreases Rank(s.run.phase), Size(s.run.phase)
  {
    if s.run.phase.SyncingConfig? {
      states, steps := [s], [];
    } else {
      var auditId := FreshIdExists(s);
      var step := StaleRunGoesOn(s, k, v, auditId);
      StaleStep(s, step, k, v);
      StaleNearer(s, step, k, v);
      var later, rest := StaleRunExists(MoverRaw(s, step), k, v);
      states, steps := [s] + later, [step] + rest;
      RunPrepends(s, step, later, rest);
    }
  }

  lemma RunPrepends(s: State, step: Step, later: seq<State>, rest: seq<Step>)
    requires ForwardRun(later, rest) && Forward(step) && MoverEnabled(s, step) && later[0] == MoverRaw(s, step)
    requires !s.run.phase.SyncingConfig?
    ensures ForwardRun([s] + later, [step] + rest)
    ensures ([s] + later)[|[step] + rest|] == later[|rest|]
  {
    var states, steps := [s] + later, [step] + rest;
    forall i | 0 <= i < |steps|
      ensures Forward(steps[i]) && MoverEnabled(states[i], steps[i])
      ensures states[i + 1] == MoverRaw(states[i], steps[i]) && !states[i].run.phase.SyncingConfig?
    {
      if i > 0 {
        assert steps[i] == rest[i - 1] && states[i] == later[i - 1] && states[i + 1] == later[i];
      }
    }
  }

  /** A run of the move from one state on, with nobody else about. */
  ghost predicate ForwardRun(states: seq<State>, steps: seq<Step>) {
    && |states| == |steps| + 1
    && forall i :: 0 <= i < |steps| ==>
         && Forward(steps[i]) && MoverEnabled(states[i], steps[i])
         && states[i + 1] == MoverRaw(states[i], steps[i]) && !states[i].run.phase.SyncingConfig?
  }

  lemma {:induction false} StaleThroughout(states: seq<State>, steps: seq<Step>, n: nat, k: Key, v: Value)
    requires ForwardRun(states, steps) && Stale(states[0], k, v) && n < |states|
    ensures Stale(states[n], k, v) && states[n].run.to == states[0].run.to
  {
    if n > 0 {
      StaleThroughout(states, steps, n - 1, k, v);
      StaleStep(states[n - 1], steps[n - 1], k, v);
    }
  }

  /** Once the pointer is renamed, the row says what the stale log says. */
  lemma StaleRunEnds(states: seq<State>, steps: seq<Step>, k: Key, v: Value)
    requires ForwardRun(states, steps) && Stale(states[0], k, v) && states[|steps|].run.phase.SyncingConfig?
    ensures RowAt(states[|steps|], k) == Some(MeaningOf(v, states[0].run.to))
  {
    StaleThroughout(states, steps, |steps|, k, v);
    StaleIsRead(states[|steps|], k, v);
  }

  lemma StaleIsRead(s: State, k: Key, v: Value)
    requires Stale(s, k, v) && s.run.phase.SyncingConfig?
    ensures RowAt(s, k) == Some(MeaningOf(v, s.run.to))
  {
  }

  // ----- the lost commit -----

  /** The process dies with the log open; someone opens the old folder, sets row `k` to `w` and closes. */
  function Between(s: State, pid: nat, k: Key, w: Value): State {
    var other := Stopped(s).(conns := Stopped(s).conns[pid := s.run.from]);
    var done := Committed(other, s.run.from, map[k := w], map[]);
    done.(conns := done.conns - {pid})
  }

  /** A crash while the log is open, a commit that changes a row already re-pointed there, and the
      same move again: every step of that is allowed, the commit is read back, the new run starts -
      and whenever it reaches the swap, the row says again what it said before the commit. */
  lemma StaleLogLosesACommit(
    s: State, pid: nat, k: Key, w: Value, states: seq<State>, steps: seq<Step>)
    requires Inv(s) && LogOpen(s) && FoldersApart(s)
    requires k.Entry? && k in StoreKeys(s.run.src, s.run.from) && k in LogOver(Now(s.fs, Partial(s.run.to, Wal)))
    requires MeaningOf(w, s.run.from) != MeaningOf(s.run.src[k], s.run.from)
    requires ForwardRun(states, steps) && states[|steps|].run.phase.SyncingConfig?
    requires states[0] == MoverRaw(Between(s, pid, k, w), Begin(s.run.to))
    ensures Inv(Between(s, pid, k, w)) && RowAt(Between(s, pid, k, w), k) == Some(MeaningOf(w, s.run.from))
    ensures MoverEnabled(Between(s, pid, k, w), Begin(s.run.to))
    ensures RowAt(states[|steps|], k) == RowAt(s, k) != RowAt(Between(s, pid, k, w), k)
  {
    LogHoldsTheOldName(s, k);
    CommitBetween(s, pid, k, w);
    RerunIsStale(s, pid, k, w);
    StaleRunEnds(states, steps, k, Repoint(s.run.src[k], s.run.from, s.run.to));
  }

  /** The log already names the document in the new store. */
  lemma LogHoldsTheOldName(s: State, k: Key)
    requires Inv(s) && LogOpen(s) && FoldersApart(s)
    requires k.Entry? && k in StoreKeys(s.run.src, s.run.from) && k in LogOver(Now(s.fs, Partial(s.run.to, Wal)))
    ensures Frozen(s) && Now(s.fs, DbFile(s.run.to, Main)).None?
    ensures Logs(s.fs, s.run.to, k, Repoint(s.run.src[k], s.run.from, s.run.to))
    ensures !InStore(Repoint(s.run.src[k], s.run.from, s.run.to), s.run.from)
    ensures MeaningOf(Repoint(s.run.src[k], s.run.from, s.run.to), s.run.to) == MeaningOf(s.run.src[k], s.run.from)
    ensures RowAt(s, k) == Some(MeaningOf(s.run.src[k], s.run.from))
  {
    assert PhaseOk(s);
    var view := PartialView(s.fs, s.run.to).value;
    assert k in view && view[k] == LogOver(Now(s.fs, Partial(s.run.to, Wal)))[k];
    InvIsSafe(s);
    SourceIsDurable(s);
    var rel := StripPrefix(s.run.src[k].path, DocumentsDir(s.run.from)).value;
    ResolveIsOption(s);
    StoresApart(s.run.to, s.run.from, rel);
  }

  lemma CommitBetween(s: State, pid: nat, k: Key, w: Value)
    requires Inv(s) && Frozen(s) && BeforeSwap(s.run.phase) && k.Entry? && k in s.run.src
    requires MeaningOf(w, s.run.from) != MeaningOf(s.run.src[k], s.run.from)
    ensures Inv(Between(s, pid, k, w))
    ensures RowAt(Between(s, pid, k, w), k) == Some(MeaningOf(w, s.run.from))
    ensures Resolve(Between(s, pid, k, w)) == s.run.from
  {
    OpenedBetween(s, pid, OtherOpen(s, pid));
    CommitOne(OtherOpen(s, pid), pid, k, w);
  }

  /** The process is dead and another one has the old folder open. */
  function OtherOpen(s: State, pid: nat): State {
    Stopped(s).(conns := Stopped(s).conns[pid := s.run.from])
  }

  lemma OpenedBetween(s: State, pid: nat, o: State)
    requires Inv(s) && Frozen(s) && BeforeSwap(s.run.phase) && o == OtherOpen(s, pid)
    ensures Inv(o) && o.run.phase.Idle? && Resolve(o) == s.run.from
    ensures Rooted(o.fs, s.run.from) && ContentOf(o.fs, s.run.from) == Some(s.run.src)
  {
    AbortKeeps(s);
    OpenKeeps(Stopped(s), pid);
    InvIsSafe(s);
    SourceIsDurable(s);
  }

  lemma OpenKeeps(s: State, pid: nat)
    requires Inv(s) && pid !in s.conns && s.lock.None?
    ensures Inv(s.(conns := s.conns[pid := Resolve(s)]))
  {
    StepKeeps(s, Open(pid));
  }

  lemma CommitOne(o: State, pid: nat, k: Key, w: Value)
    requires Inv(o) && o.run.phase.Idle? && pid in o.conns && k.Entry? && Rooted(o.fs, Resolve(o))
    requires Changes(ContentOf(o.fs, Resolve(o)).value, k, w, Resolve(o))
    ensures var c := Committed(o, Resolve(o), map[k := w], map[]);
      Inv(c.(conns := c.conns - {pid})) && RowAt(c.(conns := c.conns - {pid}), k) == Some(MeaningOf(w, Resolve(o)))
      && Resolve(c) == Resolve(o)
  {
    var c := Committed(o, Resolve(o), map[k := w], map[]);
    CommittedKeeps(o, pid, k, w, c);
    CommittedOne(o, k, w, c);
    ClosedKeeps(c, pid);
    assert Resolve(c.(conns := c.conns - {pid})) == Resolve(c);
  }

  lemma CommittedKeeps(o: State, pid: nat, k: Key, w: Value, c: State)
    requires Inv(o) && o.run.phase.Idle? && pid in o.conns && k.Entry? && Rooted(o.fs, Resolve(o))
    requires Changes(ContentOf(o.fs, Resolve(o)).value, k, w, Resolve(o))
    requires c == Committed(o, Resolve(o), map[k := w], map[])
    ensures Inv(c) && pid in c.conns
  {
    assert o.conns[pid] == Resolve(o) && o.lock.None?;
    CommitKeeps(o, pid, map[k := w], map[]);
  }

  lemma ClosedKeeps(c: State, pid: nat)
    requires Inv(c) && pid in c.conns
    ensures Inv(c.(conns := c.conns - {pid}))
  {
    StepKeeps(c, Close(pid));
  }

  lemma CommittedOne(o: State, k: Key, w: Value, c: State)
    requires Rooted(o.fs, Resolve(o)) && k.Entry? && c == Committed(o, Resolve(o), map[k := w], map[])
    ensures Resolve(c) == Resolve(o) && RowAt(c, k) == Some(MeaningOf(w, Resolve(o)))
  {
    CommitFiles(o.fs, Resolve(o), map[k := w], map[]);
  }

  lemma RerunIsStale(s: State, pid: nat, k: Key, w: Value)
    requires Inv(s) && Frozen(s) && Now(s.fs, DbFile(s.run.to, Main)).None? && k.Entry? && k in s.run.src
    requires Logs(s.fs, s.run.to, k, Repoint(s.run.src[k], s.run.from, s.run.to))
    requires !InStore(Repoint(s.run.src[k], s.run.from, s.run.to), s.run.from)
    ensures MoverEnabled(Between(s, pid, k, w), Begin(s.run.to))
    ensures Stale(MoverRaw(Between(s, pid, k, w), Begin(s.run.to)), k, Repoint(s.run.src[k], s.run.from, s.run.to))
  {
    InvIsSafe(s);
    BetweenFiles(s, pid, k, w, Between(s, pid, k, w));
    RerunBegins(s, Between(s, pid, k, w), k, Repoint(s.run.src[k], s.run.from, s.run.to));
  }

  /** The commit in between changes the old folder only. */
  lemma BetweenFiles(s: State, pid: nat, k: Key, w: Value, b: State)
    requires Rooted(s.fs, s.run.from) && Frozen(s) && b == Between(s, pid, k, w)
    ensures b.run.phase.Idle? && b.conns == map[] && b.lock.None? && Resolve(b) == s.run.from
    ensures Rooted(b.fs, s.run.from)
    ensures Now(b.fs, DbFile(s.run.to, Main)) == Now(s.fs, DbFile(s.run.to, Main))
    ensures Now(b.fs, DbFile(s.run.to, Wal)) == Now(s.fs, DbFile(s.run.to, Wal))
    ensures Now(b.fs, Partial(s.run.to, Wal)) == Now(s.fs, Partial(s.run.to, Wal))
  {
    var fs' := AddPapers(AddRows(s.fs, s.run.from, map[k := w]), s.run.from, map[]);
    assert b.fs == fs' && b.fallback == s.fallback && b.lock.None? && b.run.phase.Idle?;
    assert b.conns == map[];
    FilesBetween(s, fs', map[k := w]);
  }

  lemma FilesBetween(s: State, fs': Fs, rows: Db)
    requires Rooted(s.fs, s.run.from) && s.run.to != s.run.from
    requires fs' == AddPapers(AddRows(s.fs, s.run.from, rows), s.run.from, map[])
    ensures At(fs', Pointer) == At(s.fs, Pointer) && Rooted(fs', s.run.from)
    ensures Now(fs', DbFile(s.run.to, Main)) == Now(s.fs, DbFile(s.run.to, Main))
    ensures Now(fs', DbFile(s.run.to, Wal)) == Now(s.fs, DbFile(s.run.to, Wal))
    ensures Now(fs', Partial(s.run.to, Wal)) == Now(s.fs, Partial(s.run.to, Wal))
  {
    CommitFiles(s.fs, s.run.from, rows, map[]);
  }

  lemma RerunBegins(s: State, b: State, k: Key, v: Value)
    requires PreSwap(s) && Now(b.fs, DbFile(s.run.to, Main)).None? && k.Entry? && !InStore(v, s.run.from)
    requires b.run.phase.Idle? && b.conns == map[] && b.lock.None? && Resolve(b) == s.run.from
    requires Rooted(b.fs, s.run.from) && Logs(b.fs, s.run.to, k, v) && BlankLog(Now(b.fs, DbFile(s.run.to, Wal)))
    ensures MoverEnabled(b, Begin(s.run.to)) && Stale(MoverRaw(b, Begin(s.run.to)), k, v)
  {
    assert MoverRaw(b, Begin(s.run.to)) == b.(run := BeginRun(b, s.run.to));
  }
}
