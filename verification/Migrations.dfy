/**
 The migration runner, with any number of openers racing on one file and crashing at any point.
 A transaction is private until it commits; one opener at a time holds the write lock.
 */
module Migrations {
  import opened Wrappers

  /** The embedded migrations, by version. */
  const Versions: seq<nat> := [1, 2, 3, 4, 5, 6, 7, 8, 9, 10, 11, 12, 13, 14, 15, 16, 17]

  lemma VersionsAreContiguous()
    ensures |Versions| == 17 && forall i :: 0 <= i < |Versions| ==> Versions[i] == i + 1
  {
  }

  type Id = nat

  /** `schema`: the migration bodies applied, in order. `rows`: `schema_migrations`, ordered by version. */
  datatype Store = Store(table: bool, schema: seq<nat>, rows: seq<nat>)

  datatype Outcome = Done | Failed(version: nat) | Busy | Broken

  /** Where one opener's `migrate` call stands. */
  datatype Racer =
    | Fresh
    | Ready
    | At(i: nat, latest: nat)
    | Executed(i: nat, latest: nat)
    | Inserted(i: nat, latest: nat)
    | Finished(outcome: Outcome)

  datatype World = World(store: Store, lock: Option<Id>, racers: map<Id, Racer>)

  datatype Step =
    | Enter(id: Id)
    | CreateTable(id: Id)
    | ReadApplied(id: Id)
    | Skip(id: Id)
    | Execute(id: Id)
    | InsertRow(id: Id)
    | Commit(id: Id)
    | Return(id: Id)
    | GiveUp(id: Id)
    | TimeOut(id: Id)
    | BodyFault(id: Id)
    | Crash(id: Id)

  // ----- the tables -----

  /** `INSERT`, seen through `ORDER BY version`. */
  function WithRow(rows: seq<nat>, v: nat): seq<nat> {
    if rows == [] || rows[|rows| - 1] < v then rows + [v]
    else WithRow(rows[..|rows| - 1], v) + [rows[|rows| - 1]]
  }

  /** `applied.last().copied().unwrap_or(0)`. */
  function Latest(rows: seq<nat>): nat {
    if rows == [] then 0 else rows[|rows| - 1]
  }

  // ----- one step -----

  /** The opener is about to run a migration: its body takes the write lock. */
  predicate Pending(r: Racer) {
    r.At? && r.i < |Versions| && Versions[r.i] > r.latest
  }

  predicate Enabled(w: World, step: Step) {
    if step.Enter? then step.id !in w.racers
    else
      && step.id in w.racers
      && var r := w.racers[step.id];
         match step
         case CreateTable(_) => r.Fresh? && w.lock.None?
         case ReadApplied(_) => r.Ready? && w.store.table
         case Skip(_) => r.At? && r.i < |Versions| && Versions[r.i] <= r.latest
         case Execute(_) => Pending(r) && w.lock.None?
         case InsertRow(_) => r.Executed?
         case Commit(_) => r.Inserted? && r.i < |Versions|
         case Return(_) => r.At? && r.i >= |Versions|
         case GiveUp(_) => !r.Finished?
         case TimeOut(_) => (r.Fresh? || Pending(r)) && w.lock.Some?
         case BodyFault(_) => Pending(r)
         case _ => true
  }

  function Moved(w: World, id: Id, r: Racer): World {
    w.(racers := w.racers[id := r])
  }

  /** Leave the transaction without committing. */
  function Released(w: World, id: Id): World {
    if w.lock == Some(id) then w.(lock := None) else w
  }

  function Apply(w: World, step: Step): World
    requires Enabled(w, step)
  {
    var id := step.id;
    match step
    case Enter(_) => Moved(w, id, Fresh)
    case CreateTable(_) => Moved(w, id, Ready).(store := w.store.(table := true))
    case ReadApplied(_) => Moved(w, id, At(0, Latest(w.store.rows)))
    case Skip(_) => Moved(w, id, At(w.racers[id].i + 1, w.racers[id].latest))
    case Execute(_) =>
      // a body that is already applied fails: no migration guards its statements
      var r := w.racers[id];
      if Versions[r.i] in w.store.schema then Moved(w, id, Finished(Failed(Versions[r.i])))
      else Moved(w, id, Executed(r.i, r.latest)).(lock := Some(id))
    case InsertRow(_) =>
      var r := w.racers[id];
      if r.i < |Versions| && Versions[r.i] in w.store.rows then Released(Moved(w, id, Finished(Broken)), id)
      else Moved(w, id, Inserted(r.i, r.latest))
    case Commit(_) =>
      var r := w.racers[id];
      var v := Versions[r.i];
      World(Store(w.store.table, w.store.schema + [v], WithRow(w.store.rows, v)), None,
            w.racers[id := At(r.i + 1, r.latest)])
    case Return(_) => Moved(w, id, Finished(Done))
    case GiveUp(_) => Released(Moved(w, id, Finished(Broken)), id)
    // every error of a body is a migration error, the lock it could not get in time included
    case TimeOut(_) =>
      var r := w.racers[id];
      Moved(w, id, Finished(if r.At? then Failed(Versions[r.i]) else Busy))
    case BodyFault(_) => Moved(w, id, Finished(Failed(Versions[w.racers[id].i])))
    case Crash(_) => Released(w.(racers := w.racers - {id}), id)
  }

  // ----- what every step keeps -----

  /** The bodies applied, and the rows recorded, are the same prefix of the migrations. */
  predicate IsPrefix(s: Store) {
    && |s.schema| <= |Versions|
    && s.schema == Versions[..|s.schema|] && s.rows == s.schema
    && (s.schema != [] ==> s.table)
  }

  /** What is known of one opener when `k` migrations are in. */
  predicate RacerOk(w: World, id: Id, r: Racer) {
    var k := |w.store.schema|;
    match r
    case Fresh => w.lock != Some(id)
    case Ready => w.lock != Some(id) && w.store.table
    case At(i, latest) => w.lock != Some(id) && w.store.table && latest <= k && i <= k
    case Executed(i, latest) => w.lock == Some(id) && w.store.table && latest <= k && i == k < |Versions|
    case Inserted(i, latest) => w.lock == Some(id) && w.store.table && latest <= k && i == k < |Versions|
    case Finished(outcome) => w.lock != Some(id) && (outcome.Done? ==> k == |Versions|)
  }

  ghost predicate Inv(w: World) {
    && IsPrefix(w.store)
    && (forall id :: id in w.racers ==> RacerOk(w, id, w.racers[id]))
    && (w.lock.Some? ==> w.lock.value in w.racers)
  }

  lemma InPrefix(s: Store, i: nat)
    requires IsPrefix(s) && i < |Versions|
    ensures Versions[i] in s.schema <==> i < |s.schema|
    ensures Versions[i] in s.rows <==> i < |s.schema|
    ensures i == |s.schema| ==> s.schema + [Versions[i]] == Versions[..i + 1]
    ensures i == |s.schema| ==> WithRow(s.rows, Versions[i]) == Versions[..i + 1]
  {
    VersionsAreContiguous();
    if i < |s.schema| {
      assert s.schema[i] == Versions[i];
    }
  }

  lemma LatestIsTheCount(s: Store)
    requires IsPrefix(s)
    ensures Latest(s.rows) == |s.schema|
  {
  }

  /** Racers other than the one that moved stay as they were. */
  lemma OthersStay(w: World, w': World, id: Id)
    requires Inv(w) && w'.store == w.store && w'.racers.Keys <= w.racers.Keys + {id}
    requires forall o :: o in w'.racers && o != id ==> o in w.racers && w'.racers[o] == w.racers[o]
    requires forall o :: o != id ==> (w'.lock == Some(o) <==> w.lock == Some(o))
    ensures forall o :: o in w'.racers && o != id ==> RacerOk(w', o, w'.racers[o])
  {
  }

  lemma QuietStepKeeps(w: World, step: Step)
    requires Inv(w) && Enabled(w, step) && !step.Commit? && !step.CreateTable? && !step.Execute? && !step.InsertRow?
    ensures Inv(Apply(w, step))
  {
    var w', id := Apply(w, step), step.id;
    assert step.Enter? || RacerOk(w, id, w.racers[id]);
    LatestIsTheCount(w.store);
    if step.Skip? {
      VersionsAreContiguous();
    }
    OthersStay(w, w', id);
  }

  lemma WritingStepKeeps(w: World, step: Step)
    requires Inv(w) && Enabled(w, step) && (step.Execute? || step.InsertRow?)
    ensures Inv(Apply(w, step))
  {
  }

  lemma CommitKeeps(w: World, step: Step)
    requires Inv(w) && Enabled(w, step) && step.Commit?
    ensures Inv(Apply(w, step))
    ensures |Apply(w, step).store.schema| == |w.store.schema| + 1
  {
  }

  /** Every step of every opener, a crash included, keeps the prefix and only ever lengthens it. */
  lemma StepKeeps(w: World, step: Step)
    requires Inv(w) && Enabled(w, step)
    ensures Inv(Apply(w, step))
    ensures w.store.schema <= Apply(w, step).store.schema
  {
    if step.Commit? {
      CommitKeeps(w, step);
    } else if step.CreateTable? {
      var w', id := Apply(w, step), step.id;
      forall o | o in w'.racers && o != id ensures RacerOk(w', o, w'.racers[o]) {
        assert RacerOk(w, o, w.racers[o]);
      }
    } else if step.Execute? || step.InsertRow? {
      WritingStepKeeps(w, step);
    } else {
      QuietStepKeeps(w, step);
    }
  }

  // ----- every run -----

  /** Take the steps that are enabled when their turn comes. */
  function Run(w: World, steps: seq<Step>): World
    decreases |steps|
  {
    if steps == [] then w
    else Run(if Enabled(w, steps[0]) then Apply(w, steps[0]) else w, steps[1..])
  }

  lemma {:induction false} RunKeeps(w: World, steps: seq<Step>)
    requires Inv(w)
    ensures Inv(Run(w, steps)) && w.store.schema <= Run(w, steps).store.schema
    decreases |steps|
  {
    if steps != [] {
      if Enabled(w, steps[0]) {
        StepKeeps(w, steps[0]);
        RunKeeps(Apply(w, steps[0]), steps[1..]);
      } else {
        RunKeeps(w, steps[1..]);
      }
    }
  }

  const NewFile: World := World(Store(false, [], []), None, map[])

  /** From a new file, whatever interleaving of openers, failures and crashes: the rows recorded are
      exactly a prefix of the migrations, the schema is exactly that prefix applied once in order,
      and an opener that returned success left all of them applied. */
  lemma EveryRunKeepsThePrefix(steps: seq<Step>)
    ensures var w := Run(NewFile, steps);
            && IsPrefix(w.store)
            && (forall id :: id in w.racers && w.racers[id] == Finished(Done) ==> w.store.schema == Versions)
  {
    RunKeeps(NewFile, steps);
    var w := Run(NewFile, steps);
    forall id | id in w.racers && w.racers[id] == Finished(Done) ensures w.store.schema == Versions {
      assert RacerOk(w, id, w.racers[id]);
      assert Versions[..|Versions|] == Versions;
    }
  }

  /** Skipping on the latest version alone is sound: it skips exactly what is applied. */
  lemma SkipsExactlyTheApplied(w: World, id: Id)
    requires Inv(w) && id in w.racers && Enabled(w, ReadApplied(id))
    ensures var latest := Apply(w, ReadApplied(id)).racers[id].latest;
            forall i :: 0 <= i < |Versions| ==> (Versions[i] <= latest <==> Versions[i] in w.store.schema)
  {
    LatestIsTheCount(w.store);
    VersionsAreContiguous();
    forall i | 0 <= i < |Versions|
      ensures Versions[i] <= |w.store.schema| <==> Versions[i] in w.store.schema
    {
      InPrefix(w.store, i);
    }
  }

  /** A call ends in a migration error at one point only, and there exactly in three cases: another opener
      has committed that version since the rows were read, the lock is held for longer than the
      timeout, or the body meets an I/O error. Nothing is written. */
  lemma MigrationErrorsExactly(w: World, step: Step, v: nat)
    requires Inv(w) && Enabled(w, step) && step.id in w.racers && !w.racers[step.id].Finished?
    ensures step.id in Apply(w, step).racers && Apply(w, step).racers[step.id] == Finished(Failed(v)) <==>
      && (match w.racers[step.id]
          case At(i, latest) => i < |Versions| && latest < Versions[i] == v
          case _ => false)
      && ((step.Execute? && v in w.store.schema) || (step.TimeOut? && w.lock.Some?) || step.BodyFault?)
    ensures step.Execute? || step.TimeOut? || step.BodyFault? ==> Apply(w, step).store == w.store
  {
  }

  /** With the lock free and no fault, a body fails exactly when another opener has committed that version
      since the rows were read. */
  lemma FailsExactlyWhenOvertaken(w: World, id: Id)
    requires Inv(w) && Enabled(w, Execute(id))
    ensures Apply(w, Execute(id)).racers[id].Finished? <==> w.racers[id].i < |w.store.schema|
    ensures Apply(w, Execute(id)).racers[id].Finished? ==>
              Apply(w, Execute(id)).racers[id] == Finished(Failed(Versions[w.racers[id].i]))
              && Apply(w, Execute(id)).store == w.store
  {
  }

  /** So of two openers that both read the rows before either wrote, the slower one fails, although
      what it wanted is in the file. */
  lemma TheSlowerOpenerFails(w: World, a: Id, b: Id, i: nat)
    requires Inv(w) && a != b && a in w.racers && b in w.racers && w.lock.None?
    requires i == |w.store.schema| < |Versions| && w.racers[a] == At(i, i) && w.racers[b] == At(i, i)
    ensures var w' := Run(w, [Execute(a), InsertRow(a), Commit(a), Execute(b)]);
            b in w'.racers && w'.racers[b] == Finished(Failed(Versions[i])) && w'.store.schema == Versions[..i + 1]
  {
    VersionsAreContiguous();
    InPrefix(w.store, i);
    var w1 := Apply(w, Execute(a));
    var w2 := Apply(w1, InsertRow(a));
    var w3 := Apply(w2, Commit(a));
    assert w3.racers[b] == At(i, i) && Versions[i] in w3.store.schema;
    var w4 := Apply(w3, Execute(b));
    FourSteps(w, w1, w2, w3, w4, Execute(a), InsertRow(a), Commit(a), Execute(b));
  }

  lemma FourSteps(w: World, w1: World, w2: World, w3: World, w4: World, p: Step, q: Step, r: Step, s: Step)
    requires Enabled(w, p) && w1 == Apply(w, p) && Enabled(w1, q) && w2 == Apply(w1, q)
    requires Enabled(w2, r) && w3 == Apply(w2, r) && Enabled(w3, s) && w4 == Apply(w3, s)
    ensures Run(w, [p, q, r, s]) == w4
  {
    assert [p, q, r, s][1..] == [q, r, s] && [q, r, s][1..] == [r, s] && [r, s][1..] == [s] && [s][1..] == [];
    assert Run(w3, [s]) == w4;
    assert Run(w2, [r, s]) == w4;
    assert Run(w1, [q, r, s]) == w4;
  }
}
