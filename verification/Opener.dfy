/** One opener's `migrate` call, with the others at work between any two of its operations. */
module Opener {
  import opened Wrappers
  import opened Migrations

  /** Steps of openers other than `id` touch neither it nor, while it holds the lock, the file. */
  lemma OthersLeaveAlone(w: World, step: Step, id: Id)
    requires Enabled(w, step) && step.id != id && id in w.racers
    ensures id in Apply(w, step).racers && Apply(w, step).racers[id] == w.racers[id]
  {
  }

  class MigrateCall {
    var w: World
    const id: Id

    constructor (file: World, id: Id)
      requires Inv(file) && id !in file.racers
      ensures w == file && this.id == id
    {
      w := file;
      this.id := id;
    }

    method Do(step: Step)
      requires Inv(w) && Enabled(w, step)
      modifies this
      ensures Inv(w) && w == Apply(old(w), step) && old(w.store.schema) <= w.store.schema
    {
      StepKeeps(w, step);
      w := Apply(w, step);
    }

    /** Whatever the other openers do here, as far as it is possible. */
    method Interleave(others: seq<Step>)
      requires Inv(w) && id in w.racers
      modifies this
      ensures Inv(w) && id in w.racers && w.racers[id] == old(w.racers[id])
      ensures old(w.store.schema) <= w.store.schema
      ensures others == [] ==> w == old(w)
    {
      for n := 0 to |others|
        invariant Inv(w) && id in w.racers && w.racers[id] == old(w.racers[id])
        invariant old(w.store.schema) <= w.store.schema
        invariant n == 0 ==> w == old(w)
      {
        if others[n].id != id && Enabled(w, others[n]) {
          OthersLeaveAlone(w, others[n], id);
          Do(others[n]);
        }
      }
    }

    /** An operation of this call; it may fail, and then the call is over. */
    method Attempt(step: Step, faulty: bool) returns (ok: bool)
      requires Inv(w) && Enabled(w, step) && step.id == id && id in w.racers && Enabled(w, GiveUp(id))
      modifies this
      ensures Inv(w) && old(w.store.schema) <= w.store.schema
      ensures ok ==> w == Apply(old(w), step)
      ensures !ok ==> faulty && id in w.racers && w.racers[id] == Finished(Broken)
    {
      ok := true;
      if faulty {
        if * { ok := false; }
      }
      Do(if ok then step else GiveUp(id));
    }

    /** `migrate`, with the steps `others(t)` of other openers taken before this call's operation `t`. */
    method Migrate(others: nat -> seq<Step>, faulty: bool) returns (outcome: Outcome)
      requires Inv(w) && id !in w.racers
      modifies this
      ensures outcome.Broken? ==> faulty
      ensures Inv(w) && id in w.racers && w.racers[id] == Finished(outcome)
      ensures old(w.store.schema) <= w.store.schema
      ensures outcome.Done? ==> w.store.schema == Versions
      ensures outcome.Failed? ==> outcome.version !in old(w.store.schema)
      ensures outcome.Failed? ==> outcome.version in w.store.schema || w.lock.Some? || faulty
      ensures outcome.Busy? ==> w.lock.Some?
      ensures (forall t :: others(t) == []) && !faulty && old(w.lock).None? ==> outcome.Done?
    {
      ghost var solo := (forall t :: others(t) == []) && !faulty && w.lock.None?;
      outcome := Begin(others, faulty, solo);
      if outcome.Done? {
        outcome := Loop(others, faulty, solo);
      }
    }

    /** Create `schema_migrations` when it is missing, and read it once. */
    method Begin(others: nat -> seq<Step>, faulty: bool, ghost solo: bool) returns (outcome: Outcome)
      requires Inv(w) && id !in w.racers
      requires solo ==> (forall t :: others(t) == []) && !faulty && w.lock.None?
      modifies this
      ensures outcome.Broken? ==> faulty
      ensures Inv(w) && id in w.racers && old(w.store.schema) <= w.store.schema && !outcome.Failed?
      ensures outcome.Busy? ==> w.lock.Some?
      ensures w.racers[id] == if outcome.Done? then At(0, |w.store.schema|) else Finished(outcome)
      ensures solo ==> outcome.Done? && w.lock.None?
    {
      Do(Enter(id));
      Interleave(others(0));
      if w.lock.Some? {
        Do(TimeOut(id));
        return Busy;
      }
      var ok := Attempt(CreateTable(id), faulty);
      if !ok { return Broken; }
      Interleave(others(1));
      LatestIsTheCount(w.store);
      ok := Attempt(ReadApplied(id), faulty);
      return if ok then Done else Broken;
    }

    /** The loop over the migrations. */
    method Loop(others: nat -> seq<Step>, faulty: bool, ghost solo: bool) returns (outcome: Outcome)
      requires Inv(w) && id in w.racers && w.racers[id] == At(0, |w.store.schema|)
      requires solo ==> (forall t :: others(t) == []) && !faulty && w.lock.None?
      modifies this
      ensures outcome.Broken? ==> faulty
      ensures Inv(w) && id in w.racers && w.racers[id] == Finished(outcome)
      ensures old(w.store.schema) <= w.store.schema
      ensures outcome.Done? ==> w.store.schema == Versions
      ensures outcome.Failed? ==> outcome.version !in old(w.store.schema)
      ensures outcome.Failed? ==> outcome.version in w.store.schema || w.lock.Some? || faulty
      ensures outcome.Busy? ==> w.lock.Some?
      ensures solo ==> outcome.Done?
    {
      var latest, t := w.racers[id].latest, 2;
      VersionsAreContiguous();
      for i := 0 to |Versions|
        invariant Inv(w) && id in w.racers && w.racers[id] == At(i, latest)
        invariant latest == |old(w.store.schema)| && old(w.store.schema) <= w.store.schema
        invariant solo ==> w.lock.None? && |w.store.schema| == if i < latest then latest else i
      {
        outcome := One(others, t, i, latest, faulty, solo);
        if !outcome.Done? { return; }
        t := t + 3;
      }
      Do(Return(id));
      outcome := Done;
    }

    /** One turn of the loop: skip, or one transaction. */
    method One(others: nat -> seq<Step>, t: nat, i: nat, latest: nat, faulty: bool, ghost solo: bool)
        returns (outcome: Outcome)
      requires Inv(w) && id in w.racers && w.racers[id] == At(i, latest) && i < |Versions|
      requires solo ==> (forall t :: others(t) == []) && !faulty && w.lock.None?
      requires solo ==> |w.store.schema| == if i < latest then latest else i
      modifies this
      ensures outcome.Broken? ==> faulty
      ensures Inv(w) && id in w.racers
      ensures w.racers[id] == if outcome.Done? then At(i + 1, latest) else Finished(outcome)
      ensures old(w.store.schema) <= w.store.schema
      ensures outcome.Failed? ==> outcome.version == Versions[i] > latest
      ensures outcome.Failed? ==> outcome.version in w.store.schema || w.lock.Some? || faulty
      ensures !outcome.Busy?
      ensures solo ==> outcome.Done? && w.lock.None? && |w.store.schema| == if i + 1 < latest then latest else i + 1
    {
      VersionsAreContiguous();
      if Versions[i] <= latest {
        Do(Skip(id));
        return Done;
      }
      Interleave(others(t));
      if w.lock.Some? {
        Do(TimeOut(id));
        return Failed(Versions[i]);
      }
      InPrefix(w.store, i);
      if faulty {
        if * {
          Do(BodyFault(id));
          return Failed(Versions[i]);
        }
      }
      var ok := Attempt(Execute(id), faulty);
      if !ok { return Broken; }
      if w.racers[id].Finished? { return Failed(Versions[i]); }
      outcome := Finish(others, t + 1, i, latest, faulty, solo);
    }

    /** The rest of the transaction, once the body has run. */
    method Finish(others: nat -> seq<Step>, t: nat, i: nat, latest: nat, faulty: bool, ghost solo: bool)
        returns (outcome: Outcome)
      requires Inv(w) && id in w.racers && w.racers[id] == Executed(i, latest) && i < |Versions|
      requires solo ==> (forall t :: others(t) == []) && !faulty
      modifies this
      ensures outcome.Broken? ==> faulty
      ensures Inv(w) && id in w.racers
      ensures w.racers[id] == if outcome.Done? then At(i + 1, latest) else Finished(outcome)
      ensures old(w.store.schema) <= w.store.schema && !outcome.Failed? && !outcome.Busy?
      ensures outcome.Done? ==> w.lock.None? && w.store.schema == Versions[..i + 1]
      ensures solo ==> outcome.Done?
    {
      Interleave(others(t));
      InPrefix(w.store, i);
      var ok := Attempt(InsertRow(id), faulty);
      if !ok { return Broken; }
      Interleave(others(t + 1));
      InPrefix(w.store, i);
      ok := Attempt(Commit(id), faulty);
      if !ok { return Broken; }
      return Done;
    }
  }
}
