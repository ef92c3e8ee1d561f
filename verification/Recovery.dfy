/** Startup recovery of programs left RUNNING by a crash
    (gigaevo/database/redis_program_storage.py, recover_stranded_programs).

    Recovery runs alone, but it can itself be killed between any two commands
    and started again.  `Target` says what a finished recovery leaves behind;
    it turns out to be the same for every pattern of crashes. */
module Recovery {
  import opened Wrappers
  import opened ProgramStates
  import opened Programs
  import opened Redis

  /** Where the loop stands with the first id of `todo`. */
  datatype Phase = AtGet | AtIncr(p: Program) | AtSet(p: Program, stamp: nat) | AtMove

  datatype Process = Process(todo: seq<Id>, phase: Phase, recovered: nat)

  /** `process` is None when recovery is not running: before the first start,
      after a crash, and after it finished (then `finished` holds its count). */
  datatype World = World(db: Db, process: Option<Process>, finished: Option<nat>)

  datatype Step = Start(order: seq<Id>) | Advance | Crash

  ghost predicate Enabled(w: World, s: Step) {
    match s
    case Start(order) => w.process.None? && Distinct(order) && Elements(order) == w.db.sets.At(Running)
    case Advance => w.process.Some?
    case Crash => w.process.Some?
  }

  function Requeued(p: Program): Program { p.(state := Queued) }

  function Advanced(db: Db, process: Process): (Db, Process)
    requires process.todo != []
  {
    var id := process.todo[0];
    var rest := process.(todo := process.todo[1..], phase := AtGet);
    match process.phase
    case AtGet =>
      if id !in db.blobs then (db.(sets := db.sets.SRem(Running, {id})), rest)
      else (db, process.(phase := AtIncr(Requeued(db.blobs[id]))))
    case AtIncr(p) => (db.(counter := db.counter + 1), process.(phase := AtSet(p, db.counter + 1)))
    case AtSet(p, stamp) => (db.(blobs := db.blobs[p.id := Stamp(p, stamp)]), process.(phase := AtMove))
    case AtMove =>
      (db.(sets := db.sets.SRem(Running, {id}).SAdd(Queued, {id})), rest.(recovered := process.recovered + 1))
  }

  function Apply(w: World, s: Step): World
    requires Enabled(w, s)
  {
    match s
    case Start(order) => World(w.db, Some(Process(order, AtGet, 0)), None)
    case Crash => w.(process := None)
    case Advance =>
      if w.process.value.todo == [] then World(w.db, None, Some(w.process.value.recovered))
      else
        var next := Advanced(w.db, w.process.value);
        World(next.0, Some(next.1), None)
  }

  ghost predicate Reaches(w: World, steps: seq<Step>, w': World)
    decreases |steps|
  {
    if steps == [] then w' == w
    else Enabled(w, steps[0]) && Reaches(Apply(w, steps[0]), steps[1..], w')
  }

  // ---------------------------------------------------------------- the reference

  /** A program without the stamp of its last write. */
  function Unstamped(p: Program): Program { p.(atomicCounter := 0) }

  /** What recovery makes of one stored program, stamps aside. */
  function TargetBlob(db: Db, id: Id): Program
    requires id in db.blobs
  {
    if id in db.sets.At(Running) then Unstamped(Requeued(db.blobs[id])) else Unstamped(db.blobs[id])
  }

  function TargetSet(db: Db, s: ProgramState): set<Id> {
    match s
    case Running => {}
    case Queued => db.sets.At(Queued) + (db.sets.At(Running) * db.blobs.Keys)
    case _ => db.sets.At(s)
  }

  ghost predicate SameTarget(a: Db, b: Db) {
    && a.blobs.Keys == b.blobs.Keys
    && (forall id :: id in a.blobs ==> TargetBlob(a, id) == TargetBlob(b, id))
    && (forall s :: TargetSet(a, s) == TargetSet(b, s))
  }

  /** The program was written since `before`. */
  ghost predicate Fresh(before: Db, after: Db, id: Id) {
    id in after.blobs && before.counter < after.blobs[id].atomicCounter <= after.counter
  }

  /** `after` is a finished recovery of `before` that requeued `count` programs. */
  ghost predicate Recovered(before: Db, after: Db, count: nat) {
    && after.blobs.Keys == before.blobs.Keys
    && (forall id :: id in before.blobs ==>
          if id in before.sets.At(Running)
          then Fresh(before, after, id) && MovedTo(before.blobs[id], after.blobs[id], Queued, after.blobs[id].atomicCounter)
          else after.blobs[id] == before.blobs[id])
    && after.sets.At(Running) == {}
    && after.sets.At(Queued) == before.sets.At(Queued) + (before.sets.At(Running) * before.blobs.Keys)
    && after.sets.At(Done) == before.sets.At(Done)
    && after.sets.At(Discarded) == before.sets.At(Discarded)
    && count == |before.sets.At(Running) * before.blobs.Keys|
  }

  // ---------------------------------------------------------------- invariants

  ghost predicate PhaseInv(start: Db, db: Db, id: Id, phase: Phase) {
    match phase
    case AtGet => true
    case AtIncr(p) => id in db.blobs && p == Requeued(db.blobs[id])
    case AtSet(p, stamp) => id in db.blobs && p == Requeued(db.blobs[id]) && start.counter < stamp <= db.counter
    case AtMove => Fresh(start, db, id) && db.blobs[id].state == Queued
  }

  ghost predicate ProcessInv(start: Db, db: Db, process: Process) {
    && Distinct(process.todo)
    && Elements(process.todo) == db.sets.At(Running)
    && (process.todo == [] ==> process.phase == AtGet)
    && (process.todo != [] ==> PhaseInv(start, db, process.todo[0], process.phase))
  }

  /** A stored program leaves the RUNNING set only once it has been written. */
  ghost predicate LeftWritten(start: Db, db: Db) {
    && start.counter <= db.counter
    && forall id :: id in start.blobs && id in start.sets.At(Running) && id !in db.sets.At(Running) ==> Fresh(start, db, id)
  }

  /** Everything that never changes, whatever is interrupted. */
  ghost predicate Untouched(start: Db, db: Db) {
    && Keyed(db.blobs)
    && db.sets.At(Running) <= start.sets.At(Running)
    && db.blobs.Keys == start.blobs.Keys
    && (forall id :: id in start.blobs && id !in start.sets.At(Running) ==> db.blobs[id] == start.blobs[id])
  }

  ghost predicate Inv(start: Db, w: World) {
    && Untouched(start, w.db) && LeftWritten(start, w.db)
    && SameTarget(start, w.db)
    && (w.process.Some? ==> ProcessInv(start, w.db, w.process.value) && w.finished.None?)
    && (w.finished.Some? ==> w.db.sets.At(Running) == {})
  }

  lemma {:induction false} FirstOfDistinct(ids: seq<Id>)
    requires Distinct(ids) && ids != []
    ensures Distinct(ids[1..]) && Elements(ids[1..]) == Elements(ids) - {ids[0]} && ids[0] in Elements(ids)
  {
    assert ids == [ids[0]] + ids[1..];
  }

  lemma {:induction false} CleanKeepsTarget(db: Db, id: Id)
    requires id in db.sets.At(Running) && id !in db.blobs
    ensures SameTarget(db, db.(sets := db.sets.SRem(Running, {id})))
  {
  }

  lemma {:induction false} SetKeepsTarget(db: Db, id: Id, stamp: nat)
    requires id in db.sets.At(Running) && id in db.blobs
    ensures SameTarget(db, db.(blobs := db.blobs[id := Stamp(Requeued(db.blobs[id]), stamp)]))
  {
  }

  lemma {:induction false} MoveKeepsTarget(db: Db, id: Id)
    requires id in db.sets.At(Running) && id in db.blobs && db.blobs[id].state == Queued
    ensures SameTarget(db, db.(sets := db.sets.SRem(Running, {id}).SAdd(Queued, {id})))
  {
    var after := db.(sets := db.sets.SRem(Running, {id}).SAdd(Queued, {id}));
    forall k | k in db.blobs ensures TargetBlob(db, k) == TargetBlob(after, k) {
      if k == id {
        assert Requeued(db.blobs[k]) == db.blobs[k];
      }
    }
    forall s ensures TargetSet(db, s) == TargetSet(after, s) {}
  }

  lemma {:induction false} SameTargetTransitive(a: Db, b: Db, c: Db)
    requires SameTarget(a, b) && SameTarget(b, c)
    ensures SameTarget(a, c)
  {
    forall s ensures TargetSet(a, s) == TargetSet(c, s) {
      assert TargetSet(b, s) == TargetSet(c, s);
    }
  }

  lemma {:induction false} AdvancedLeft(start: Db, db: Db, process: Process)
    requires LeftWritten(start, db) && db.blobs.Keys == start.blobs.Keys && Keyed(db.blobs)
    requires ProcessInv(start, db, process) && process.todo != []
    ensures LeftWritten(start, Advanced(db, process).0)
  {
  }

  lemma {:induction false} AdvancedInv(start: Db, db: Db, process: Process)
    requires Untouched(start, db) && start.counter <= db.counter && ProcessInv(start, db, process) && process.todo != []
    ensures var next := Advanced(db, process);
            Untouched(start, next.0) && SameTarget(db, next.0) && ProcessInv(start, next.0, next.1)
  {
    var id := process.todo[0];
    FirstOfDistinct(process.todo);
    match process.phase
    case AtGet => if id !in db.blobs { CleanKeepsTarget(db, id); }
    case AtIncr(p) =>
    case AtSet(p, stamp) => SetKeepsTarget(db, id, stamp);
    case AtMove => MoveKeepsTarget(db, id);
  }

  lemma {:induction false} StepInv(start: Db, w: World, s: Step)
    requires Inv(start, w) && Enabled(w, s)
    ensures Inv(start, Apply(w, s))
  {
    match s
    case Start(order) =>
    case Crash =>
    case Advance =>
      if w.process.value.todo != [] {
        AdvancedInv(start, w.db, w.process.value);
        AdvancedLeft(start, w.db, w.process.value);
        SameTargetTransitive(start, w.db, Advanced(w.db, w.process.value).0);
      }
  }

  lemma {:induction false} RunInv(start: Db, w: World, steps: seq<Step>, w': World)
    requires Inv(start, w) && Reaches(w, steps, w')
    ensures Inv(start, w')
    decreases |steps|
  {
    if steps != [] {
      StepInv(start, w, steps[0]);
      RunInv(start, Apply(w, steps[0]), steps[1..], w');
    }
  }

  // ---------------------------------------------------------------- main results

  ghost predicate RecoveredButCount(before: Db, after: Db) {
    Recovered(before, after, |before.sets.At(Running) * before.blobs.Keys|)
  }

  lemma {:induction false} TargetReached(start: Db, db: Db)
    requires Untouched(start, db) && LeftWritten(start, db) && SameTarget(start, db) && db.sets.At(Running) == {}
    ensures RecoveredButCount(start, db)
  {
    assert TargetSet(db, Queued) == db.sets.At(Queued);
    assert TargetSet(start, Queued) == TargetSet(db, Queued);
    assert TargetSet(start, Done) == TargetSet(db, Done);
    assert TargetSet(start, Discarded) == TargetSet(db, Discarded);
    forall id | id in start.blobs && id in start.sets.At(Running)
      ensures MovedTo(start.blobs[id], db.blobs[id], Queued, db.blobs[id].atomicCounter)
    {
      assert TargetBlob(start, id) == TargetBlob(db, id);
    }
  }

  /** Restartability: kill recovery anywhere, any number of times, restart it
      over the ids in any order; once some run finishes, the blobs (stamps
      aside) and the status sets are those of one undisturbed recovery, and
      programs outside the RUNNING set were never written. */
  lemma {:induction false} CrashesDoNotMatter(db: Db, steps: seq<Step>, w: World)
    requires Keyed(db.blobs)
    requires Reaches(World(db, None, None), steps, w) && w.finished.Some?
    ensures RecoveredButCount(db, w.db)
  {
    RunInv(db, World(db, None, None), steps, w);
    TargetReached(db, w.db);
  }

  // ---------------------------------------------------------------- it finishes, and counts

  function Left(process: Process): nat {
    4 * |process.todo| + (match process.phase case AtGet => 3 case AtIncr(_) => 2 case AtSet(_, _) => 1 case AtMove => 0)
  }

  /** What the process will have counted when it is through. */
  ghost function Due(db: Db, process: Process): nat { process.recovered + |db.sets.At(Running) * db.blobs.Keys| }

  predicate Leaves(db: Db, process: Process)
    requires process.todo != []
  {
    process.phase.AtMove? || (process.phase.AtGet? && process.todo[0] !in db.blobs)
  }

  /** A step either takes the first id out of the RUNNING set or leaves the set
      alone, and never adds or deletes a program. */
  lemma {:induction false} AdvancedSets(start: Db, db: Db, process: Process)
    requires Keyed(db.blobs) && process.todo != [] && PhaseInv(start, db, process.todo[0], process.phase)
    ensures var next := Advanced(db, process).0;
            && next.blobs.Keys == db.blobs.Keys
            && next.sets.At(Running) == db.sets.At(Running) - if Leaves(db, process) then {process.todo[0]} else {}
  {
  }

  lemma {:induction false} AdvancedIsLess(db: Db, process: Process)
    requires process.todo != []
    ensures Left(Advanced(db, process).1) < Left(process)
    ensures Advanced(db, process).1.recovered == process.recovered + if process.phase.AtMove? then 1 else 0
  {
  }

  lemma {:induction false} DueStays(db: Db, process: Process, db': Db, process': Process, id: Id, leaves: bool)
    requires id in db.sets.At(Running) && db'.blobs.Keys == db.blobs.Keys
    requires db'.sets.At(Running) == db.sets.At(Running) - if leaves then {id} else {}
    requires process'.recovered == process.recovered + if leaves && id in db.blobs then 1 else 0
    ensures Due(db', process') == Due(db, process)
  {
    CountWithout(db.sets.At(Running), db.blobs.Keys, id);
    assert db.sets.At(Running) - {} == db.sets.At(Running);
  }

  lemma {:induction false} AdvancedCounts(start: Db, db: Db, process: Process)
    requires Keyed(db.blobs) && ProcessInv(start, db, process) && process.todo != []
    ensures Due(Advanced(db, process).0, Advanced(db, process).1) == Due(db, process)
  {
    var id := process.todo[0];
    AdvancedSets(start, db, process);
    AdvancedIsLess(db, process);
    FirstOfDistinct(process.todo);
    var next, leaves := Advanced(db, process), Leaves(db, process);
    assert process.phase.AtMove? <==> leaves && id in db.blobs;
    DueStays(db, process, next.0, next.1, id, leaves);
  }

  /** Left alone, a running recovery gets through. */
  lemma {:induction false} Finishes(start: Db, w: World) returns (steps: seq<Step>, w': World)
    requires Inv(start, w) && w.process.Some?
    ensures Reaches(w, steps, w') && w'.finished == Some(Due(w.db, w.process.value))
    decreases Left(w.process.value)
  {
    var next := Apply(w, Advance);
    StepInv(start, w, Advance);
    if w.process.value.todo == [] {
      assert w.db.sets.At(Running) * w.db.blobs.Keys == {};
      steps, w' := [], next;
    } else {
      AdvancedCounts(start, w.db, w.process.value);
      AdvancedIsLess(w.db, w.process.value);
      steps, w' := Finishes(start, next);
    }
    assert ([Advance] + steps)[1..] == steps;
    steps := [Advance] + steps;
  }

  lemma {:induction false} AnyOrder(ids: set<Id>) returns (order: seq<Id>)
    ensures Distinct(order) && Elements(order) == ids
    decreases |ids|
  {
    if ids == {} {
      order := [];
    } else {
      var id :| id in ids;
      var rest := AnyOrder(ids - {id});
      order := [id] + rest;
      ElementsAppend([id], rest);
      forall i, j | 0 <= i < j < |order| ensures order[i] != order[j] {
        assert order[j] == rest[j - 1] && rest[j - 1] in Elements(rest);
        assert i > 0 ==> order[i] == rest[i - 1];
      }
    }
  }

  /** Killed at any point of any run, recovery can be started again; left alone
      it then finishes, and reports how many programs it found stranded. */
  lemma {:induction false} CanAlwaysFinish(db: Db, steps: seq<Step>, w: World) returns (more: seq<Step>, w': World)
    requires Keyed(db.blobs)
    requires Reaches(World(db, None, None), steps, w) && w.process.Some?
    ensures Reaches(w, more, w') && w'.finished == Some(|w.db.sets.At(Running) * w.db.blobs.Keys|)
  {
    RunInv(db, World(db, None, None), steps, w);
    var order := AnyOrder(w.db.sets.At(Running));
    var w1 := Apply(w, Crash);
    var w2 := Apply(w1, Start(order));
    StepInv(db, w, Crash);
    StepInv(db, w1, Start(order));
    var rest;
    rest, w' := Finishes(db, w2);
    more := [Start(order)] + rest;
    assert more[1..] == rest;
    assert ([Crash] + more)[1..] == more;
    more := [Crash] + more;
  }

  /** The loop's progress: what is left of the RUNNING set is what is left to do. */
  ghost predicate Underway(start: Db, db: Db, todo: set<Id>, recovered: nat) {
    && Untouched(start, db) && LeftWritten(start, db)
    && SameTarget(start, db)
    && db.sets.At(Running) == todo
    && recovered + |todo * start.blobs.Keys| == |start.sets.At(Running) * start.blobs.Keys|
  }

  lemma UnderwayAtStart(db: Db)
    requires Keyed(db.blobs)
    ensures Underway(db, db, db.sets.At(Running), 0)
  {
  }

  lemma {:induction false} CountWithout(todo: set<Id>, keys: set<Id>, id: Id)
    requires id in todo
    ensures |(todo - {id}) * keys| == |todo * keys| - if id in keys then 1 else 0
  {
    assert (todo - {id}) * keys == (todo * keys) - {id};
  }

  lemma {:induction false} CleanOne(start: Db, db: Db, todo: set<Id>, recovered: nat, id: Id)
    requires Underway(start, db, todo, recovered) && id in todo && id !in db.blobs
    ensures Underway(start, db.(sets := db.sets.SRem(Running, {id})), todo - {id}, recovered)
  {
    CleanKeepsTarget(db, id);
    CleanKeepsUntouched(start, db, id);
    SameTargetTransitive(start, db, db.(sets := db.sets.SRem(Running, {id})));
    CountWithout(todo, start.blobs.Keys, id);
  }

  /** What the loop body does to a stored program. */
  function RequeuedDb(db: Db, id: Id, stamp: nat): Db
    requires id in db.blobs
  {
    Db(db.blobs[id := Stamp(Requeued(db.blobs[id]), stamp)], db.sets.SRem(Running, {id}).SAdd(Queued, {id}), stamp)
  }

  lemma {:induction false} RequeueKeepsTarget(db: Db, id: Id, stamp: nat)
    requires id in db.sets.At(Running) && id in db.blobs
    ensures SameTarget(db, RequeuedDb(db, id, stamp))
  {
    var mid := Db(db.blobs[id := Stamp(Requeued(db.blobs[id]), stamp)], db.sets, stamp);
    SetKeepsTarget(db, id, stamp);
    assert SameTarget(db, mid);
    MoveKeepsTarget(mid, id);
    SameTargetTransitive(db, mid, mid.(sets := mid.sets.SRem(Running, {id}).SAdd(Queued, {id})));
  }

  lemma {:induction false} RequeueKeepsUntouched(start: Db, db: Db, id: Id, stamp: nat)
    requires Untouched(start, db) && id in db.sets.At(Running) && id in db.blobs
    ensures Untouched(start, RequeuedDb(db, id, stamp))
    ensures RequeuedDb(db, id, stamp).sets.At(Running) == db.sets.At(Running) - {id}
  {
  }

  lemma {:induction false} RequeueLeavesWritten(start: Db, db: Db, id: Id, stamp: nat)
    requires LeftWritten(start, db) && id in db.sets.At(Running) && id in db.blobs && db.counter < stamp
    ensures LeftWritten(start, RequeuedDb(db, id, stamp))
  {
  }

  lemma {:induction false} CleanKeepsUntouched(start: Db, db: Db, id: Id)
    requires Untouched(start, db) && LeftWritten(start, db) && id in db.sets.At(Running) && id !in db.blobs
    ensures var after := db.(sets := db.sets.SRem(Running, {id}));
            Untouched(start, after) && LeftWritten(start, after) && after.sets.At(Running) == db.sets.At(Running) - {id}
  {
  }

  lemma {:induction false} RequeueOne(start: Db, db: Db, todo: set<Id>, recovered: nat, id: Id, stamp: nat)
    requires Underway(start, db, todo, recovered) && id in todo && id in db.blobs && db.counter < stamp
    ensures Underway(start, RequeuedDb(db, id, stamp), todo - {id}, recovered + 1)
  {
    RequeueKeepsTarget(db, id, stamp);
    RequeueKeepsUntouched(start, db, id, stamp);
    RequeueLeavesWritten(start, db, id, stamp);
    SameTargetTransitive(start, db, RequeuedDb(db, id, stamp));
    CountWithout(todo, start.blobs.Keys, id);
  }

  function RecoverOneDb(db: Db, id: Id): Db {
    if id in db.blobs then RequeuedDb(db, id, db.counter + 1) else db.(sets := db.sets.SRem(Running, {id}))
  }

  lemma {:induction false} UnderwayOf(start: Db, a: Db, b: Db, todo: set<Id>, recovered: nat)
    requires a == b && Underway(start, a, todo, recovered)
    ensures Underway(start, b, todo, recovered)
  {
  }

  lemma {:induction false} RecoverStored(start: Db, db: Db, todo: set<Id>, recovered: nat, id: Id)
    requires Underway(start, db, todo, recovered) && id in todo && id in db.blobs
    ensures Underway(start, RecoverOneDb(db, id), todo - {id}, recovered + 1)
  {
    var after := RequeuedDb(db, id, db.counter + 1);
    RequeueOne(start, db, todo, recovered, id, db.counter + 1);
    UnderwayOf(start, after, RecoverOneDb(db, id), todo - {id}, recovered + 1);
  }

  lemma {:induction false} RecoverDangling(start: Db, db: Db, todo: set<Id>, recovered: nat, id: Id)
    requires Underway(start, db, todo, recovered) && id in todo && id !in db.blobs
    ensures Underway(start, RecoverOneDb(db, id), todo - {id}, recovered)
  {
    CleanOne(start, db, todo, recovered, id);
  }

  lemma {:induction false} RecoverOneUnderway(start: Db, db: Db, todo: set<Id>, recovered: nat, id: Id)
    requires Underway(start, db, todo, recovered) && id in todo
    ensures Underway(start, RecoverOneDb(db, id), todo - {id}, recovered + if id in db.blobs then 1 else 0)
    ensures id in db.blobs ==> db.blobs[id].id == id
  {
    if id in db.blobs {
      RecoverStored(start, db, todo, recovered, id);
    } else {
      RecoverDangling(start, db, todo, recovered, id);
    }
  }

  /** What a refused, read-only recovery leaves: dangling ids may be gone from
      the RUNNING set, nothing else changed. */
  ghost predicate OnlyCleaned(before: Db, db: Db, todo: set<Id>) {
    && db.blobs == before.blobs && db.counter == before.counter
    && db.sets.At(Running) == todo
    && before.sets.At(Running) * before.blobs.Keys <= todo <= before.sets.At(Running)
    && (forall s :: s != Running ==> db.sets.At(s) == before.sets.At(s))
  }

  lemma {:induction false} CleanedMore(before: Db, db: Db, todo: set<Id>, id: Id)
    requires OnlyCleaned(before, db, todo) && id in todo && id !in db.blobs
    ensures OnlyCleaned(before, RecoverOneDb(db, id), todo - {id})
  {
  }

  lemma {:induction false} StoredInRunning(before: Db, db: Db, todo: set<Id>, id: Id)
    requires OnlyCleaned(before, db, todo) && id in todo && id in db.blobs
    ensures !(before.sets.At(Running) !! before.blobs.Keys)
  {
    assert id in before.sets.At(Running) && id in before.blobs.Keys;
  }

  lemma {:induction false} NothingLeft(start: Db, db: Db, recovered: nat)
    requires Underway(start, db, {}, recovered)
    ensures Recovered(start, db, recovered)
  {
    TargetReached(start, db);
    assert {} * start.blobs.Keys == {};
  }

  /** The condition on the database found at startup under which recovery
      restores the status index. A program may be queued already while still
      in the RUNNING set, which is what an interrupted recovery leaves. */
  ghost predicate RecoverableAt(db: Db, id: Id, s: ProgramState) {
    if id !in db.sets.At(Running) then id in db.sets.At(s) <==> id in db.blobs && db.blobs[id].state == s
    else id in db.sets.At(s) ==> s == Running || (s == Queued && id in db.blobs)
  }

  ghost predicate IndexedAt(db: Db, id: Id, s: ProgramState) {
    id in db.sets.At(s) <==> id in db.blobs && db.blobs[id].state == s
  }

  ghost predicate Recoverable(db: Db) {
    forall id, s :: RecoverableAt(db, id, s)
  }

  lemma {:induction false} IndexInvIsRecoverable(db: Db)
    requires IndexInv(db)
    ensures Recoverable(db)
  {
    forall id, s ensures RecoverableAt(db, id, s) {
      IndexAt(db, id, s);
      IndexAt(db, id, Running);
    }
  }

  lemma {:induction false} RecoveredAt(before: Db, after: Db, count: nat, id: Id, s: ProgramState)
    requires Recovered(before, after, count)
    ensures IndexedAt(after, id, s) <==> RecoverableAt(before, id, s)
  {
    if id in before.blobs && id in before.sets.At(Running) {
      assert after.blobs[id].state == Queued;
    }
  }

  lemma {:induction false} PointwiseIndex(before: Db, after: Db)
    requires forall id, s :: IndexedAt(after, id, s) <==> RecoverableAt(before, id, s)
    ensures IndexInv(after) <==> Recoverable(before)
  {
    if IndexInv(after) {
      forall id, s ensures IndexedAt(after, id, s) {
        IndexAt(after, id, s);
      }
    }
    if Recoverable(before) {
      forall id, s ensures id in after.sets.At(s) <==> id in after.blobs && after.blobs[id].state == s {
        assert RecoverableAt(before, id, s);
        assert IndexedAt(after, id, s);
      }
    }
  }

  /** After recovery the status index holds exactly when the start was
      recoverable; in particular it survives every crash pattern. */
  lemma {:induction false} RecoveryRestoresIndexIff(before: Db, after: Db, count: nat)
    requires Recovered(before, after, count)
    ensures IndexInv(after) <==> Recoverable(before)
  {
    forall id, s ensures IndexedAt(after, id, s) <==> RecoverableAt(before, id, s) {
      RecoveredAt(before, after, count, id, s);
    }
    PointwiseIndex(before, after);
  }
}
