/**
 What the step machine guarantees over whole runs: which committed rows survive, exactly when a
 power cut takes one, and that no step of the move ever puts one at risk.
 */
module MoveRuns {
  import opened Wrappers
  import opened Paths
  import opened Books
  import opened Disk
  import opened Move
  import opened MoveInvariant
  import opened MoveWorld
  import opened MoveFrames

  /** Any interleaving of the move, other processes, crashes and power cuts. */
  ghost predicate IsRun(states: seq<State>, steps: seq<Step>) {
    && |states| == |steps| + 1
    && forall i :: 0 <= i < |steps| ==> Covered(states[i], steps[i]) && states[i + 1] == Apply(states[i], steps[i])
  }

  lemma {:induction false} RunKeeps(states: seq<State>, steps: seq<Step>, n: nat)
    requires IsRun(states, steps) && Inv(states[0]) && n < |states|
    ensures Inv(states[n])
  {
    if n > 0 {
      RunKeeps(states, steps, n - 1);
      StepKeeps(states[n - 1], steps[n - 1]);
    }
  }

  /** A place to start: no move has ever been made and the platform default folder holds the books.
      The last commits may not have reached the disk; whatever else lies around, no database is
      half-written. */
  ghost predicate Untouched(s: State) {
    && s.run.phase.Idle? && s.lock.None?
    && Absent(s.fs, Pointer) && Absent(s.fs, Journal)
    && MainsWhole(s.fs) && Rooted(s.fs, s.fallback)
    && (forall pid :: pid in s.conns ==> s.conns[pid] == s.fallback)
    && s.past.books == Said(ContentOf(s.fs, s.fallback).value, s.fallback)
    && (forall rel :: rel in s.past.papers ==> Now(s.fs, Doc(s.fallback, rel)) == Some(Blob(s.past.papers[rel])))
    && (forall k: Key :: k in s.past.unsynced <==> k.Entry? && SomeLogDisagrees(s, k))
    && s.past.unsynced <= s.past.books.Keys && s.past.made == {}
  }

  /** Some state of the log that may be on disk says something else of row `k`. */
  ghost predicate SomeLogDisagrees(s: State, k: Key) {
    exists wal :: wal in OnDisk(s.fs, DbFile(Resolve(s), Wal)) &&
      Reads(s.fs, Resolve(s), wal, k) != RowOf(s.past.books, k)
  }

  /** The file is absent, durably. */
  predicate Absent(fs: Fs, id: FileId) {
    OnDisk(fs, id) == {None}
  }

  /** Every installation is a state the invariant holds of. */
  lemma InstallationsMeetTheInvariant(s: State)
    requires Untouched(s)
    ensures Inv(s)
  {
    assert Now(s.fs, Pointer) in OnDisk(s.fs, Pointer);
    assert Options(s) == {s.fallback};
    assert LogTruthful(s);
  }

  lemma InvIsSafe(s: State)
    requires Inv(s)
    ensures Safe(s)
  {
  }

  /** In every state of every run - crashes, power cuts and all - the folder the pointer file names
      has its database under the final name; it says what the books say, and every stored document
      is there. */
  lemma EveryRunIsSafe(states: seq<State>, steps: seq<Step>)
    requires IsRun(states, steps) && Inv(states[0])
    ensures forall n :: 0 <= n < |states| ==> Safe(states[n])
  {
    forall n | 0 <= n < |states|
      ensures Safe(states[n])
    {
      RunKeeps(states, steps, n);
      InvIsSafe(states[n]);
    }
  }

  // ----- exactly which rows a power cut may take -----

  /** The row a reader of the resolved folder finds. */
  function RowAt(s: State, k: Key): Option<Meaning> {
    match ContentOf(s.fs, Resolve(s))
    case Some(db) => if k in db then Some(MeaningOf(db[k], Resolve(s))) else None
    case None => None
  }

  lemma RowIsTheBooks(s: State, k: Key)
    requires Safe(s) && k.Entry?
    ensures RowAt(s, k) == RowOf(s.past.books, k)
  {
    assert RowAt(s, k) == RowOf(BooksAt(s), k);
  }

  lemma BooksAreEntries(s: State)
    requires Safe(s)
    ensures forall k :: k in s.past.books ==> k.Entry?
  {
  }

  /** The state a power cut leaves. */
  function Cut(s: State, cut: Fs): State {
    WorldRaw(s, PowerCut(cut))
  }

  /** A power cut may take a row if and only if it was committed since the log last reached the
      disk, or changed since a rename of the pointer that has not. */
  lemma PowerCutTakesExactlyRowsAtRisk(s: State, k: Key)
    requires Inv(s) && k in s.past.books
    ensures (exists cut :: CutOf(s.fs, cut) && RowAt(Cut(s, cut), k) != RowAt(s, k)) <==> AtRisk(s, k)
  {
    BooksAreEntries(s);
    RowIsTheBooks(s, k);
    if NotSynced(s, k) {
      var cut := LogCutTakes(s, k);
    } else if Exposed(s, k) {
      var cut := PointerCutTakes(s, k);
    } else {
      forall cut | CutOf(s.fs, cut)
        ensures RowAt(Cut(s, cut), k) == RowAt(s, k)
      {
        CutLeavesRow(s, k, cut);
      }
    }
  }

  lemma CutLeavesRow(s: State, k: Key, cut: Fs)
    requires Inv(s) && k in s.past.books && k.Entry? && !AtRisk(s, k) && CutOf(s.fs, cut)
    ensures RowAt(Cut(s, cut), k) == Some(s.past.books[k])
  {
    CutOptions(s, cut);
    var q := Resolve(Cut(s, cut));
    if q == Resolve(s) {
      CutReadsLog(s, k, cut);
      LogReads(s, k, Now(cut, DbFile(q, Wal)));
    } else {
      CutReverts(s, cut, q, k);
    }
  }

  lemma CutReverts(s: State, cut: Fs, q: Path, k: Key)
    requires Inv(s) && CutOf(s.fs, cut) && q in Options(s) && q != Resolve(s) && q == Resolve(Cut(s, cut)) && k.Entry?
    ensures RowAt(Cut(s, cut), k) == RowOf(s.past.before, k) && Options(s) != {Resolve(s)}
  {
    assert Reverts(s, q);
    CutFolders(s, cut);
    RevertedRow(s, cut, q, k);
  }

  lemma CutReadsLog(s: State, k: Key, cut: Fs)
    requires CutOf(s.fs, cut) && Rooted(s.fs, Resolve(s)) && Resolve(Cut(s, cut)) == Resolve(s)
    ensures Now(cut, DbFile(Resolve(s), Wal)) in OnDisk(s.fs, DbFile(Resolve(s), Wal))
    ensures RowAt(Cut(s, cut), k) == Reads(s.fs, Resolve(s), Now(cut, DbFile(Resolve(s), Wal)), k)
  {
    CutFolders(s, cut);
  }

  /** A row that is synced reads the same in every state the log may come back in. */
  lemma LogReads(s: State, k: Key, wal: File)
    requires Safe(s) && LogTruthful(s) && k in s.past.books && k.Entry? && !NotSynced(s, k)
    requires wal in OnDisk(s.fs, DbFile(Resolve(s), Wal))
    ensures Reads(s.fs, Resolve(s), wal, k) == Some(s.past.books[k])
  {
    NowReads(s);
  }

  lemma RevertedRow(s: State, cut: Fs, q: Path, k: Key)
    requires Reverts(s, q) && ContentOf(cut, q) == ContentOf(s.fs, q) && Resolve(Cut(s, cut)) == q && k.Entry?
    ensures RowAt(Cut(s, cut), k) == RowOf(s.past.before, k)
  {
  }

  /** The disk after a power cut that leaves one file at `f` and everything else as it is. */
  function CutAt(fs: Fs, at: FileId, f: File): Fs {
    map id | id in fs :: if id == at then Slot(f, {f}) else Slot(Now(fs, id), {Now(fs, id)})
  }

  lemma CutAtIsCut(fs: Fs, at: FileId, f: File)
    requires f in OnDisk(fs, at)
    ensures CutOf(fs, CutAt(fs, at, f)) && Now(CutAt(fs, at, f), at) == f
    ensures forall id :: id != at ==> Now(CutAt(fs, at, f), id) == Now(fs, id)
  {
  }

  lemma LogCutTakes(s: State, k: Key) returns (cut: Fs)
    requires Inv(s) && k in s.past.books && k.Entry? && NotSynced(s, k)
    ensures CutOf(s.fs, cut) && RowAt(Cut(s, cut), k) != Some(s.past.books[k])
  {
    assert LogTruthful(s);
    var wal :| wal in OnDisk(s.fs, DbFile(Resolve(s), Wal)) && Reads(s.fs, Resolve(s), wal, k) != Some(s.past.books[k]);
    cut := CutAt(s.fs, DbFile(Resolve(s), Wal), wal);
    CutToLog(s, k, wal);
  }

  lemma CutToLog(s: State, k: Key, wal: File)
    requires wal in OnDisk(s.fs, DbFile(Resolve(s), Wal))
    ensures CutOf(s.fs, CutAt(s.fs, DbFile(Resolve(s), Wal), wal))
    ensures RowAt(Cut(s, CutAt(s.fs, DbFile(Resolve(s), Wal), wal)), k) == Reads(s.fs, Resolve(s), wal, k)
  {
    CutAtIsCut(s.fs, DbFile(Resolve(s), Wal), wal);
  }

  lemma PointerCutTakes(s: State, k: Key) returns (cut: Fs)
    requires Inv(s) && k in s.past.books && k.Entry? && Exposed(s, k)
    ensures CutOf(s.fs, cut) && RowAt(Cut(s, cut), k) != Some(s.past.books[k])
  {
    ResolveIsOption(s);
    var q :| q in Options(s) && q != Resolve(s);
    assert Reverts(s, q);
    var f :| f in OnDisk(s.fs, Pointer) && FolderOf(s.fallback, f) == q;
    cut := CutAt(s.fs, Pointer, f);
    CutToFolder(s, k, f);
  }

  lemma CutToFolder(s: State, k: Key, f: File)
    requires f in OnDisk(s.fs, Pointer) && Reverts(s, FolderOf(s.fallback, f)) && k.Entry?
    ensures CutOf(s.fs, CutAt(s.fs, Pointer, f))
    ensures RowAt(Cut(s, CutAt(s.fs, Pointer, f)), k) == RowOf(s.past.before, k)
  {
    CutAtIsCut(s.fs, Pointer, f);
    RevertedRow(s, CutAt(s.fs, Pointer, f), FolderOf(s.fallback, f), k);
  }

  /** A stored document comes through every power cut, with its bytes, if and only if it is on disk
      in every folder the pointer may come back to. */
  lemma PowerCutTakesExactlyLoosePapers(s: State, rel: Path)
    requires Inv(s) && rel in s.past.papers
    ensures (forall cut :: CutOf(s.fs, cut) ==> rel in Cut(s, cut).past.papers) <==> PaperOnDisk(s, rel)
  {
    if PaperOnDisk(s, rel) {
      forall cut | CutOf(s.fs, cut)
        ensures rel in Cut(s, cut).past.papers
      {
        PaperComesThrough(s, rel, cut);
      }
    } else {
      var q :| q in Options(s) && OnDisk(s.fs, Doc(q, rel)) != {Some(Blob(s.past.papers[rel]))};
      var f :| f in OnDisk(s.fs, Doc(q, rel)) && f != Some(Blob(s.past.papers[rel]));
      var p :| p in OnDisk(s.fs, Pointer) && FolderOf(s.fallback, p) == q;
      LooseCut(s, rel, p, f);
    }
  }

  lemma PaperComesThrough(s: State, rel: Path, cut: Fs)
    requires PointerWhole(s) && rel in s.past.papers && PaperOnDisk(s, rel) && CutOf(s.fs, cut)
    ensures rel in Cut(s, cut).past.papers
  {
    CutOptions(s, cut);
    CutFolders(s, cut);
  }

  /** The disk with the pointer at `p` and the document it leads to at `f`. */
  function CutPaper(s: State, rel: Path, p: File, f: File): Fs {
    var id := Doc(FolderOf(s.fallback, p), rel);
    map i | i in s.fs ::
      if i == Pointer then Slot(p, {p}) else if i == id then Slot(f, {f}) else Slot(Now(s.fs, i), {Now(s.fs, i)})
  }

  lemma LooseCut(s: State, rel: Path, p: File, f: File)
    requires rel in s.past.papers && p in OnDisk(s.fs, Pointer)
    requires f in OnDisk(s.fs, Doc(FolderOf(s.fallback, p), rel)) && f != Some(Blob(s.past.papers[rel]))
    ensures CutOf(s.fs, CutPaper(s, rel, p, f)) && rel !in Cut(s, CutPaper(s, rel, p, f)).past.papers
  {
    var cut := CutPaper(s, rel, p, f);
    assert Now(cut, Pointer) == p;
    assert Now(cut, Doc(FolderOf(s.fallback, p), rel)) == f;
  }

  /** The document is on disk in every folder resolution may name after a power cut. */
  predicate PaperOnDisk(s: State, rel: Path)
    requires rel in s.past.papers
  {
    forall q :: q in Options(s) ==> OnDisk(s.fs, Doc(q, rel)) == {Some(Blob(s.past.papers[rel]))}
  }

  // ----- who puts rows at risk -----

  /** Resolution and the log of the resolved folder are no worse on disk than they were. */
  predicate NoLooser(s: State, s': State) {
    && Resolve(s') == Resolve(s) && Options(s') <= Options(s)
    && Now(s'.fs, DbFile(Resolve(s), Wal)) == Now(s.fs, DbFile(Resolve(s), Wal))
    && OnDisk(s'.fs, DbFile(Resolve(s), Wal)) <= OnDisk(s.fs, DbFile(Resolve(s), Wal))
    && s'.past == s.past.(made := s'.past.made)
  }

  lemma NoLooserRisksNothing(s: State, s': State, k: Key)
    requires NoLooser(s, s') && AtRisk(s', k) && PointerWhole(s)
    ensures AtRisk(s, k)
  {
    ResolveIsOption(s);
  }

  /** Only a commit ever puts a row at risk. No step of the move does, nor does opening, closing or
      syncing anything; a power cut that leaves a row leaves it durable. */
  lemma OnlyCommitsPutRowsAtRisk(s: State, step: Step, k: Key)
    requires Inv(s) && Covered(s, step) && !step.Commit?
    requires k in Apply(s, step).past.books && AtRisk(Apply(s, step), k)
    ensures AtRisk(s, k)
  {
    var s' := Apply(s, step);
    if step.PowerCut? {
      PowerCutKeeps(s, step.cut);
    } else if step.Next? && s.run.phase.Swapping? {
      SwapRisksNothing(s, k);
    } else if step.Next? && s.run.phase.Locking? {
      LockingSyncs(s, k);
    } else if IsMover(step) {
      MoverLoosensNothing(s, step);
      NoLooserRisksNothing(s, s', k);
    } else {
      WorldLoosensNothing(s, step);
      NoLooserRisksNothing(s, s', k);
    }
  }

  /** After the rename of the pointer every row is safe from power cuts, whichever way they leave it. */
  lemma SwapRisksNothing(s: State, k: Key)
    requires Inv(s) && s.run.phase.Swapping?
    ensures !AtRisk(Apply(s, Next), k)
  {
    assert AtSwapping(s) && MoverNext(s) == Swap(s);
    SwapSettles(s);
    SettledRisksNothing(Swap(s), k);
  }

  lemma SwapSettles(s: State)
    requires Core(s) && AtSwapping(s)
    ensures Settled(Swap(s).fs, Resolve(Swap(s))) && Swap(s).past.before == Swap(s).past.books
  {
    SwapPointer(s);
    CopyIsComplete(s);
    SwapFolders(s, s.run.to);
  }

  lemma SettledRisksNothing(s: State, k: Key)
    requires Settled(s.fs, Resolve(s)) && s.past.before == s.past.books
    ensures !AtRisk(s, k)
  {
  }

  /** Taking the lock forces every committed row down before the copy starts. */
  lemma LockingSyncs(s: State, k: Key)
    requires Inv(s) && s.run.phase.Locking? && MoverEnabled(s, Next)
    ensures !NotSynced(Apply(s, Next), k)
    ensures Exposed(Apply(s, Next), k) ==> Exposed(s, k)
  {
    var db := ContentOf(s.fs, s.run.from).value;
    assert MoverNext(s) == LockAndFold(s, db);
    LockContent(s, db);
  }

  lemma MoverLoosensNothing(s: State, step: Step)
    requires Inv(s) && IsMover(step) && MoverEnabled(s, step)
    requires !(step.Next? && (s.run.phase.Swapping? || s.run.phase.Locking?))
    ensures NoLooser(s, MoverRaw(s, step))
  {
    PointerSettles(s, step);
    FewerOptions(s, MoverRaw(s, step));
    if step.Next? {
      NextLogStays(s);
    } else {
      ChoiceLogStays(s, step);
    }
  }

  lemma ChoiceLogStays(s: State, step: Step)
    requires PhaseOk(s) && PointerWhole(s) && IsMover(step) && MoverEnabled(s, step) && !step.Next?
    ensures NoWorse(s.fs, MoverRaw(s, step).fs, DbFile(Resolve(s), Wal))
    ensures MoverRaw(s, step).past == s.past.(made := MoverRaw(s, step).past.made)
  {
    ResolveIsOption(s);
  }

  /** The log of the resolved folder is not the move's to write. */
  lemma NextLogStays(s: State)
    requires Inv(s) && MoverEnabled(s, Next) && !s.run.phase.Swapping? && !s.run.phase.Locking?
    ensures NoWorse(s.fs, MoverNext(s).fs, DbFile(Resolve(s), Wal))
    ensures MoverNext(s).past == s.past
  {
    NextTouches(s);
    NextKeepsPlan(s);
    NotTheResolvedLog(s);
  }

  lemma NotTheResolvedLog(s: State)
    requires PhaseOk(s) && PointerWhole(s) && !s.run.phase.Locking?
    ensures !Touches(s, DbFile(Resolve(s), Wal))
  {
    ResolveIsOption(s);
  }

  lemma WorldLoosensNothing(s: State, step: Step)
    requires Inv(s) && !IsMover(step) && WorldEnabled(s, step) && !step.Commit? && !step.PowerCut?
    ensures NoLooser(s, WorldRaw(s, step))
  {
    ResolveIsOption(s);
    if step.Flush? {
      FlushCore(s, step.id);
      FlushFolders(s.fs, step.id);
    }
  }

  /** Nor does anything but a commit put a stored document at risk: once it is on disk it stays so, in
      every folder the pointer may come back to, the new one included. */
  lemma OnlyCommitsLoosenPapers(s: State, step: Step, rel: Path)
    requires Inv(s) && Covered(s, step) && !step.Commit? && rel in s.past.papers && PaperOnDisk(s, rel)
    ensures rel in Apply(s, step).past.papers && PaperOnDisk(Apply(s, step), rel)
  {
    ResolveIsOption(s);
    if step.PowerCut? {
      PaperAfterCut(s, step.cut, rel);
    } else if step.Next? && s.run.phase.Swapping? {
      SwapKeepsPaper(s, rel);
    } else if IsMover(step) {
      MoverKeepsHistory(s, step);
      PointerSettles(s, step);
      FewerOptions(s, MoverRaw(s, step));
      MoverKeepsPaperFiles(s, step, rel);
      StillOnDisk(s, MoverRaw(s, step), rel);
    } else {
      WorldKeepsPaperFiles(s, step, rel);
      StillOnDisk(s, WorldRaw(s, step), rel);
    }
  }

  lemma StillOnDisk(s: State, s': State, rel: Path)
    requires rel in s.past.papers && PaperOnDisk(s, rel) && s'.past.papers == s.past.papers
    requires Options(s') <= Options(s) && forall q :: q in Options(s) ==> NoWorse(s.fs, s'.fs, Doc(q, rel))
    ensures PaperOnDisk(s', rel)
  {
    forall q | q in Options(s')
      ensures OnDisk(s'.fs, Doc(q, rel)) == {Some(Blob(s.past.papers[rel]))}
    {
      assert NoWorse(s.fs, s'.fs, Doc(q, rel)) && Now(s'.fs, Doc(q, rel)) in OnDisk(s'.fs, Doc(q, rel));
    }
  }

  lemma PaperAfterCut(s: State, cut: Fs, rel: Path)
    requires PointerWhole(s) && CutOf(s.fs, cut) && rel in s.past.papers && PaperOnDisk(s, rel)
    ensures rel in Cut(s, cut).past.papers && PaperOnDisk(Cut(s, cut), rel)
  {
    PaperComesThrough(s, rel, cut);
    CutResolves(s, cut);
    RecoveredPaper(Stopped(s.(fs := cut, conns := map[])), rel);
    CutPaperFile(s.fs, Cut(s, cut), rel);
  }

  /** The documents of a recovered history are those found intact. */
  lemma RecoveredPaper(s: State, rel: Path)
    requires rel in Recovered(s).past.papers
    ensures Now(Recovered(s).fs, Doc(Resolve(Recovered(s)), rel)) == Some(Blob(Recovered(s).past.papers[rel]))
  {
  }

  lemma CutResolves(s: State, cut: Fs)
    requires PointerWhole(s) && CutOf(s.fs, cut)
    ensures Options(Cut(s, cut)) == {Resolve(Cut(s, cut))} && Cut(s, cut).fs == cut
  {
    CutOptions(s, cut);
  }

  lemma CutPaperFile(fs: Fs, s: State, rel: Path)
    requires CutOf(fs, s.fs) && Options(s) == {Resolve(s)} && rel in s.past.papers
    requires Now(s.fs, Doc(Resolve(s), rel)) == Some(Blob(s.past.papers[rel]))
    ensures PaperOnDisk(s, rel)
  {
  }

  lemma SwapKeepsPaper(s: State, rel: Path)
    requires Inv(s) && s.run.phase.Swapping? && rel in s.past.papers && PaperOnDisk(s, rel)
    ensures rel in MoverNext(s).past.papers && PaperOnDisk(MoverNext(s), rel)
  {
    assert AtSwapping(s) && MoverNext(s) == Swap(s);
    PaperIsCopied(s, rel);
    SwapPointer(s);
    PaperInBoth(s, Swap(s), rel);
  }

  lemma PaperIsCopied(s: State, rel: Path)
    requires AtSwapping(s) && rel in s.past.papers
    ensures OnDisk(s.fs, Doc(s.run.to, rel)) == {Some(Blob(s.past.papers[rel]))}
  {
    assert Copied(s, {});
    assert Holds(s.fs, Doc(s.run.to, rel), s.run.store[rel]);
  }

  lemma PaperInBoth(s: State, s': State, rel: Path)
    requires rel in s.past.papers && PaperOnDisk(s, rel) && s'.past.papers == s.past.papers
    requires OnDisk(s.fs, Doc(s.run.to, rel)) == {Some(Blob(s.past.papers[rel]))}
    requires Options(s') == Options(s) + {s.run.to}
    requires forall id :: id != Pointer && id != PointerTmp ==> At(s'.fs, id) == At(s.fs, id)
    ensures PaperOnDisk(s', rel)
  {
  }

  lemma MoverKeepsPaperFiles(s: State, step: Step, rel: Path)
    requires Inv(s) && IsMover(step) && MoverEnabled(s, step) && !(step.Next? && s.run.phase.Swapping?)
    ensures forall q :: q in Options(s) ==> NoWorse(s.fs, MoverRaw(s, step).fs, Doc(q, rel))
  {
    if step.Next? {
      NextKeepsPaperFiles(s, rel);
    } else {
      ChoiceKeepsPaperFiles(s, step, rel);
    }
  }

  lemma ChoiceKeepsPaperFiles(s: State, step: Step, rel: Path)
    requires PhaseOk(s) && IsMover(step) && MoverEnabled(s, step) && !step.Next?
    ensures forall q :: q in Options(s) ==> At(MoverRaw(s, step).fs, Doc(q, rel)) == At(s.fs, Doc(q, rel))
  {
  }

  lemma NextKeepsPaperFiles(s: State, rel: Path)
    requires PhaseOk(s) && MoverEnabled(s, Next)
    ensures forall q :: q in Options(s) ==> NoWorse(s.fs, MoverNext(s).fs, Doc(q, rel))
  {
    NextTouches(s);
    forall q | q in Options(s)
      ensures NoWorse(s.fs, MoverNext(s).fs, Doc(q, rel))
    {
      assert !Touches(s, Doc(q, rel));
    }
  }

  lemma WorldKeepsPaperFiles(s: State, step: Step, rel: Path)
    requires Inv(s) && !IsMover(step) && WorldEnabled(s, step) && !step.Commit? && !step.PowerCut?
    ensures WorldRaw(s, step).past == s.past && Options(WorldRaw(s, step)) <= Options(s)
    ensures forall q :: q in Options(s) ==> NoWorse(s.fs, WorldRaw(s, step).fs, Doc(q, rel))
  {
    WorldLoosensNothing(s, step);
  }

  // ----- what becomes of one committed row -----

  predicate Rewritten(step: Step, k: Key) {
    step.Commit? && k in step.rows
  }

  /** A step takes nothing from row `k`: it does not write it, and does not cut power while it is at risk. */
  ghost predicate Spares(s: State, step: Step, k: Key) {
    !Rewritten(step, k) && (step.PowerCut? ==> !AtRisk(s, k))
  }

  lemma StepKeepsRow(s: State, step: Step, k: Key)
    requires Inv(s) && Covered(s, step) && k in s.past.books && Spares(s, step, k)
    ensures k in Apply(s, step).past.books && Apply(s, step).past.books[k] == s.past.books[k]
  {
    if IsMover(step) {
      MoverKeepsHistory(s, step);
    } else if step.PowerCut? {
      BooksAreEntries(s);
      CutLeavesRow(s, k, step.cut);
      PowerCutKeeps(s, step.cut);
      InvIsSafe(Cut(s, step.cut));
      RowIsTheBooks(Cut(s, step.cut), k);
    }
  }

  lemma MoverKeepsHistory(s: State, step: Step)
    requires IsMover(step) && MoverEnabled(s, step)
    ensures MoverRaw(s, step).past.books == s.past.books && MoverRaw(s, step).past.papers == s.past.papers
    ensures MoverRaw(s, step).past.unsynced == s.past.unsynced
    ensures !(step.Next? && s.run.phase.Swapping?) ==> MoverRaw(s, step).past.before == s.past.before
  {
  }

  lemma RunStepKeepsRow(states: seq<State>, steps: seq<Step>, n: nat, k: Key)
    requires IsRun(states, steps) && Inv(states[0]) && n < |steps|
    requires k in states[n].past.books && Spares(states[n], steps[n], k)
    ensures k in states[n + 1].past.books && states[n + 1].past.books[k] == states[n].past.books[k]
  {
    RunKeeps(states, steps, n);
    StepKeepsRow(states[n], steps[n], k);
  }

  lemma {:induction false} RowStays(states: seq<State>, steps: seq<Step>, i: nat, j: nat, k: Key)
    requires IsRun(states, steps) && Inv(states[0]) && i <= j < |states| && k in states[i].past.books
    requires forall n :: i <= n < j ==> Spares(states[n], steps[n], k)
    ensures k in states[j].past.books && states[j].past.books[k] == states[i].past.books[k]
    decreases j
  {
    if i < j {
      RowStays(states, steps, i, j - 1, k);
      RunStepKeepsRow(states, steps, j - 1, k);
    }
  }

  /** A committed row keeps saying what it said until a later transaction rewrites it or power is
      cut while it is at risk: its text is unchanged, a document in the store goes by the same name,
      a document stored in place by the same path. */
  lemma CommittedRowsSurvive(states: seq<State>, steps: seq<Step>, i: nat, j: nat, k: Key)
    requires IsRun(states, steps) && Inv(states[0]) && i <= j < |states| && k in states[i].past.books
    requires forall n :: i <= n < j ==> Spares(states[n], steps[n], k)
    ensures RowAt(states[j], k).Some? && RowAt(states[j], k) == RowAt(states[i], k)
  {
    RowStays(states, steps, i, j, k);
    RunKeeps(states, steps, i);
    RunKeeps(states, steps, j);
    BooksAreEntries(states[i]);
    RowIsTheBooks(states[i], k);
    RowIsTheBooks(states[j], k);
  }

  /** A step takes nothing from document `rel`: it does not cut power while it is at risk. */
  ghost predicate SparesPaper(s: State, step: Step, rel: Path) {
    step.PowerCut? && rel in s.past.papers ==> PaperOnDisk(s, rel)
  }

  lemma StepKeepsPaper(s: State, step: Step, rel: Path)
    requires Inv(s) && Covered(s, step) && rel in s.past.papers && SparesPaper(s, step, rel)
    ensures rel in Apply(s, step).past.papers && Apply(s, step).past.papers[rel] == s.past.papers[rel]
  {
    if IsMover(step) {
      MoverKeepsHistory(s, step);
    } else if step.Commit? {
      assert s.conns[step.pid] == Resolve(s);
      assert rel in StoreNames(s.fs, Resolve(s));
    } else if step.PowerCut? {
      PowerCutTakesExactlyLoosePapers(s, rel);
    }
  }

  lemma RunStepKeepsPaper(states: seq<State>, steps: seq<Step>, n: nat, rel: Path)
    requires IsRun(states, steps) && Inv(states[0]) && n < |steps|
    requires rel in states[n].past.papers && SparesPaper(states[n], steps[n], rel)
    ensures rel in states[n + 1].past.papers && states[n + 1].past.papers[rel] == states[n].past.papers[rel]
  {
    RunKeeps(states, steps, n);
    StepKeepsPaper(states[n], steps[n], rel);
  }

  lemma {:induction false} PaperStays(states: seq<State>, steps: seq<Step>, i: nat, j: nat, rel: Path)
    requires IsRun(states, steps) && Inv(states[0]) && i <= j < |states| && rel in states[i].past.papers
    requires forall n :: i <= n < j ==> SparesPaper(states[n], steps[n], rel)
    ensures rel in states[j].past.papers && states[j].past.papers[rel] == states[i].past.papers[rel]
    decreases j
  {
    if i < j {
      PaperStays(states, steps, i, j - 1, rel);
      RunStepKeepsPaper(states, steps, j - 1, rel);
    }
  }

  /** A stored document keeps its name and its bytes unless power is cut while it is not on disk. */
  lemma StoredPapersSurvive(states: seq<State>, steps: seq<Step>, i: nat, j: nat, rel: Path)
    requires IsRun(states, steps) && Inv(states[0]) && i <= j < |states| && rel in states[i].past.papers
    requires forall n :: i <= n < j ==> SparesPaper(states[n], steps[n], rel)
    ensures Now(states[j].fs, Doc(Resolve(states[j]), rel)) == Some(Blob(states[i].past.papers[rel]))
  {
    PaperStays(states, steps, i, j, rel);
    RunKeeps(states, steps, j);
    InvIsSafe(states[j]);
  }

  /** A commit is readable as soon as it is made. */
  lemma CommitIsReadable(s: State, pid: nat, rows: Db, papers: map<Path, Bytes>, k: Key)
    requires Inv(s) && WorldEnabled(s, Commit(pid, rows, papers)) && k in rows
    ensures var s' := Apply(s, Commit(pid, rows, papers));
      k in s'.past.books && RowAt(s', k) == Some(MeaningOf(rows[k], Resolve(s)))
  {
    var s' := Apply(s, Commit(pid, rows, papers));
    StepKeeps(s, Commit(pid, rows, papers));
    InvIsSafe(s');
    RowIsTheBooks(s', k);
  }

  // ----- the window between the pointer's rename and its directory sync -----

  lemma PointerStays(s: State, step: Step)
    requires IsMover(step) && MoverEnabled(s, step) && !(step.Next? && s.run.phase.Swapping?)
    ensures Resolve(MoverRaw(s, step)) == Resolve(s)
    ensures OnDisk(MoverRaw(s, step).fs, Pointer) <= OnDisk(s.fs, Pointer)
  {
    if step.Next? {
      NextPointerStays(s);
    } else {
      assert At(MoverRaw(s, step).fs, Pointer) == At(s.fs, Pointer);
    }
  }

  lemma NextPointerStays(s: State)
    requires MoverEnabled(s, Next) && !s.run.phase.Swapping?
    ensures Resolve(MoverNext(s)) == Resolve(s)
    ensures OnDisk(MoverNext(s).fs, Pointer) <= OnDisk(s.fs, Pointer)
  {
    NextTouches(s);
    NextKeepsPlan(s);
    assert NoWorse(s.fs, MoverNext(s).fs, Pointer);
  }

  lemma PointerSettles(s: State, step: Step)
    requires IsMover(step) && MoverEnabled(s, step) && !(step.Next? && s.run.phase.Swapping?)
    ensures Resolve(MoverRaw(s, step)) == Resolve(s)
    ensures OnDisk(MoverRaw(s, step).fs, Pointer) <= OnDisk(s.fs, Pointer)
    ensures MoverRaw(s, step).fallback == s.fallback
    ensures Options(s) == {Resolve(s)} ==> Options(MoverRaw(s, step)) == {Resolve(s)}
  {
    PointerStays(s, step);
    FewerOptions(s, MoverRaw(s, step));
  }

  lemma FewerOptions(s: State, s': State)
    requires s'.fallback == s.fallback && OnDisk(s'.fs, Pointer) <= OnDisk(s.fs, Pointer)
    ensures Options(s') <= Options(s) && Resolve(s') in Options(s')
  {
  }

  /** Only the rename of the pointer opens that window; syncing the config directory closes it. */
  lemma OnlyTheSwapOpensTheWindow(s: State, step: Step)
    requires Inv(s) && Covered(s, step) && Options(s) == {Resolve(s)}
    requires Options(Apply(s, step)) != {Resolve(Apply(s, step))}
    ensures step.Next? && s.run.phase.Swapping?
  {
    ResolveIsOption(s);
    if IsMover(step) {
      if !(step.Next? && s.run.phase.Swapping?) {
        PointerSettles(s, step);
      }
    } else if step.Commit? {
      CommitFiles(s.fs, Resolve(s), step.rows, step.papers);
    } else if step.PowerCut? {
      CutOptions(s, step.cut);
    } else if step.Flush? {
      FlushCore(s, step.id);
    }
  }

  lemma ConfigSyncClosesTheWindow(s: State, k: Key)
    requires Inv(s) && s.run.phase.SyncingConfig?
    ensures Options(Apply(s, Next)) == {s.run.to} && !Exposed(Apply(s, Next), k)
  {
    assert MoverNext(s) == SyncConfig(s);
    SyncPointer(s, SyncConfig(s));
  }

  /** The window is real. From every state between the pointer's rename and the sync of its
      directory, one more process opening and committing, even with its log synced at once, then a
      power cut, loses the commit: the exclusive lock covers only the old folder. */
  lemma WindowCommitIsLost(s: State, pid: nat, rows: Db, k: Key)
    requires Inv(s) && s.run.phase.SyncingConfig? && s.run.from in Options(s)
    requires pid !in s.conns && forall j :: j in rows ==>
      j.Entry? && Changes(ContentOf(s.fs, s.run.to).value, j, rows[j], s.run.to)
    requires k in rows && (k in s.past.before ==> s.past.before[k] != MeaningOf(rows[k], s.run.to))
    ensures Enabled(s, Open(pid)) && Enabled(Apply(s, Open(pid)), Commit(pid, rows, map[]))
    ensures LosesOnPowerCut(WithLogSynced(Committed(Apply(s, Open(pid)), s.run.to, rows, map[])), k)
  {
    OpenInWindow(s, pid);
    var o := Apply(s, Open(pid));
    StepKeeps(s, Open(pid));
    OpenedInWindow(s, o, pid, rows);
    CommittedIsExposed(o, pid, rows, k);
  }

  lemma OpenedInWindow(s: State, o: State, pid: nat, rows: Db)
    requires Inv(s) && s.run.phase.SyncingConfig? && s.run.from in Options(s)
    requires o == s.(conns := s.conns[pid := s.run.to]) && Resolve(s) == s.run.to
    requires forall j :: j in rows ==> j.Entry? && Changes(ContentOf(s.fs, s.run.to).value, j, rows[j], s.run.to)
    requires ContentOf(s.fs, s.run.to).Some?
    ensures Options(o) != {Resolve(o)} && Resolve(o) == s.run.to && WorldEnabled(o, Commit(pid, rows, map[]))
  {
    assert s.run.from in Options(o) && s.lock == Some(s.run.from) && s.run.from != s.run.to;
  }

  lemma CommittedIsExposed(o: State, pid: nat, rows: Db, k: Key)
    requires Inv(o) && Options(o) != {Resolve(o)} && WorldEnabled(o, Commit(pid, rows, map[]))
    requires k in rows && (k in o.past.before ==> o.past.before[k] != MeaningOf(rows[k], Resolve(o)))
    ensures LosesOnPowerCut(WithLogSynced(Committed(o, Resolve(o), rows, map[])), k)
  {
    assert o.conns[pid] == Resolve(o);
    StepKeeps(o, Commit(pid, rows, map[]));
    CommitFiles(o.fs, Resolve(o), rows, map[]);
    FlushedIsStillExposed(Committed(o, Resolve(o), rows, map[]), k);
  }

  function WithLogSynced(s: State): State {
    s.(fs := SyncFile(s.fs, DbFile(Resolve(s), Wal)))
  }

  lemma FlushedIsStillExposed(c: State, k: Key)
    requires Inv(c) && DbFile(Resolve(c), Wal) in c.fs && Exposed(c, k)
    ensures LosesOnPowerCut(WithLogSynced(c), k)
  {
    FlushKeeps(c, DbFile(Resolve(c), Wal));
    FlushCore(c, DbFile(Resolve(c), Wal));
    PowerCutTakesExactlyRowsAtRisk(WithLogSynced(c), k);
  }

  /** Some power cut changes or takes row `k`. */
  ghost predicate LosesOnPowerCut(s: State, k: Key) {
    exists cut :: CutOf(s.fs, cut) && RowAt(Cut(s, cut), k) != RowAt(s, k)
  }

  lemma OpenInWindow(s: State, pid: nat)
    requires Inv(s) && s.run.phase.SyncingConfig? && pid !in s.conns
    ensures Resolve(s) == s.run.to && ContentOf(s.fs, s.run.to).Some?
    ensures Enabled(s, Open(pid)) && Apply(s, Open(pid)) == s.(conns := s.conns[pid := s.run.to])
  {
  }
}
