/** The per-program locks that serialise state changes, as tasks interleaving at
    their awaits (gigaevo/database/state_manager.py).

    Each id has at most one lock in the table; a task looks its lock up, waits
    for it, and works inside. A change to a terminal state drops the id's entry
    on the way out. The programs are owned by this manager alone: nobody else
    writes them meanwhile. */
module StateManagers {
  import opened Ordering
  import opened ProgramStates
  import opened Programs
  import opened Redis

  type TaskId = nat

  type LockId = nat

  datatype Op = SetState(target: ProgramState) | SetResult(stage: string, result: Value) | WriteBack

  /** Inside the lock: just entered, the object changed but nothing sent, the
      write stamped and serialised, or done with the storage. */
  datatype Point = Entered | Assigned(before: ProgramState) | Stamped(blob: Program, before: ProgramState) | Finished(evicts: bool)

  datatype Task = Waiting(id: Id, lock: LockId, op: Op) | Inside(id: Id, lock: LockId, op: Op, point: Point)

  /** `objects` are the shared in-memory programs, `next` the first unused lock. */
  datatype World = World(db: Db, objects: map<Id, Program>, locks: map<Id, LockId>, next: LockId, tasks: map<TaskId, Task>)

  /** `Raise` is a store call that fails, with its write `applied` or not. */
  datatype Step =
    | Enter(t: TaskId, id: Id, op: Op)
    | Acquire(t: TaskId)
    | Act(t: TaskId)
    | Incr(t: TaskId)
    | Commit(t: TaskId)
    | Raise(t: TaskId, applied: bool)
    | Leave(t: TaskId)

  predicate Terminal(s: ProgramState) { s == Done || s == Discarded }

  ghost predicate Held(w: World, lock: LockId) {
    exists t :: t in w.tasks && w.tasks[t].Inside? && w.tasks[t].lock == lock
  }

  predicate At(w: World, t: TaskId, p: Point -> bool) {
    t in w.tasks && w.tasks[t].Inside? && p(w.tasks[t].point)
  }

  ghost predicate Enabled(w: World, s: Step) {
    match s
    case Enter(t, id, op) => t !in w.tasks && id in w.objects
    case Acquire(t) => t in w.tasks && w.tasks[t].Waiting? && !Held(w, w.tasks[t].lock)
    case Act(t) => At(w, t, (p: Point) => p.Entered?) && w.tasks[t].id in w.objects
    case Incr(t) => At(w, t, (p: Point) => p.Assigned?) && w.tasks[t].id in w.objects
    case Commit(t) => At(w, t, (p: Point) => p.Stamped?)
    case Raise(t, applied) => At(w, t, (p: Point) => p.Stamped? || (p.Assigned? && !applied))
    case Leave(t) => At(w, t, (p: Point) => p.Finished?)
  }

  // ---------------------------------------------------------------- what each step does

  function EnterStep(w: World, t: TaskId, id: Id, op: Op): World {
    if id in w.locks then w.(tasks := w.tasks[t := Waiting(id, w.locks[id], op)])
    else w.(locks := w.locks[id := w.next], next := w.next + 1, tasks := w.tasks[t := Waiting(id, w.next, op)])
  }

  function MoveTo(w: World, t: TaskId, p: Point): World
    requires t in w.tasks
  {
    w.(tasks := w.tasks[t := Inside(w.tasks[t].id, w.tasks[t].lock, w.tasks[t].op, p)])
  }

  function InState(p: Program, s: ProgramState): Program { p.(state := s) }

  function WithResult(p: Program, stage: string, result: Value): Program {
    p.(stageResults := p.stageResults[stage := result])
  }

  /** The synchronous part: a repeated state returns early and a forbidden one
      raises, both without a write; otherwise the object is changed in place. */
  function ActStep(w: World, t: TaskId): World
    requires t in w.tasks && w.tasks[t].id in w.objects
  {
    var id, p := w.tasks[t].id, w.objects[w.tasks[t].id];
    match w.tasks[t].op
    case SetState(target) =>
      if p.state == target || !IsValidTransition(p.state, target) then MoveTo(w, t, Finished(false))
      else MoveTo(w.(objects := w.objects[id := InState(p, target)]), t, Assigned(p.state))
    case SetResult(stage, result) =>
      MoveTo(w.(objects := w.objects[id := WithResult(p, stage, result)]), t, Assigned(p.state))
    case WriteBack => MoveTo(w, t, Assigned(p.state))
  }

  /** The stamp goes into what is sent, not into the object. */
  function IncrStep(w: World, t: TaskId): World
    requires t in w.tasks && w.tasks[t].Inside? && w.tasks[t].point.Assigned? && w.tasks[t].id in w.objects
  {
    var id := w.tasks[t].id;
    var c := w.db.counter + 1;
    var blob := Stamp(w.objects[id], c);
    MoveTo(w.(db := w.db.(counter := c)), t, Stamped(blob, w.tasks[t].point.before))
  }

  /** The pipelined write, with a stamp taken earlier. */
  function Write(db: Db, id: Id, op: Op, blob: Program, before: ProgramState): Db {
    match op
    case SetState(target) => Db(db.blobs[id := blob], db.sets.SRem(before, {id}).SAdd(target, {id}), db.counter)
    case SetResult(_, _) => db.(blobs := db.blobs[id := blob])
    case WriteBack => db.(blobs := db.blobs[id := blob])
  }

  function CommitStep(w: World, t: TaskId): World
    requires t in w.tasks && w.tasks[t].Inside? && w.tasks[t].point.Stamped?
  {
    var task := w.tasks[t];
    MoveTo(w.(db := Write(w.db, task.id, task.op, task.point.blob, task.point.before)), t,
           Finished(task.op.SetState? && Terminal(task.op.target)))
  }

  /** The exception leaves the lock without evicting it, and the object as the
      call has changed it. */
  function RaiseStep(w: World, t: TaskId, applied: bool): World
    requires t in w.tasks && w.tasks[t].Inside? && (applied ==> w.tasks[t].point.Stamped?)
  {
    var task := w.tasks[t];
    MoveTo(if applied then w.(db := Write(w.db, task.id, task.op, task.point.blob, task.point.before)) else w, t, Finished(false))
  }

  /** Releasing and, after a terminal change, dropping the table entry happen
      without an await in between. */
  function LeaveStep(w: World, t: TaskId): World
    requires t in w.tasks && w.tasks[t].Inside? && w.tasks[t].point.Finished?
  {
    var left := w.(tasks := w.tasks - {t});
    if w.tasks[t].point.evicts then left.(locks := w.locks - {w.tasks[t].id}) else left
  }

  function Next(w: World, s: Step): World
    requires Enabled(w, s)
  {
    match s
    case Enter(t, id, op) => EnterStep(w, t, id, op)
    case Acquire(t) => MoveTo(w, t, Entered)
    case Act(t) => ActStep(w, t)
    case Incr(t) => IncrStep(w, t)
    case Commit(t) => CommitStep(w, t)
    case Raise(t, applied) => RaiseStep(w, t, applied)
    case Leave(t) => LeaveStep(w, t)
  }

  // ---------------------------------------------------------------- mutual exclusion

  ghost predicate Exclusive(w: World) {
    forall t, u :: t in w.tasks && u in w.tasks && w.tasks[t].Inside? && w.tasks[u].Inside? && w.tasks[t].id == w.tasks[u].id ==> t == u
  }

  /** Some other task is waiting for the lock of this one. */
  ghost predicate WaitedOn(w: World, t: TaskId) {
    t in w.tasks && exists u :: u in w.tasks && u != t && w.tasks[u].Waiting? && w.tasks[u].id == w.tasks[t].id
  }

  ghost predicate Evicts(w: World, s: Step) {
    s.Leave? && At(w, s.t, (p: Point) => p.Finished? && p.evicts)
  }

  /** The proviso: no eviction while somebody waits for the id. */
  ghost predicate Quiet(w: World, s: Step) { Evicts(w, s) ==> !WaitedOn(w, s.t) }

  ghost predicate TableInv(w: World) {
    && (forall id :: id in w.locks ==> w.locks[id] < w.next)
    && (forall a, b :: a in w.locks && b in w.locks && a != b ==> w.locks[a] != w.locks[b])
  }

  /** Every task holds or waits for the lock now in the table. */
  ghost predicate CurrentLock(w: World, t: TaskId) {
    t in w.tasks ==> w.tasks[t].id in w.locks && w.locks[w.tasks[t].id] == w.tasks[t].lock
  }

  ghost predicate OnePerLock(w: World) {
    forall t, u :: t in w.tasks && u in w.tasks && w.tasks[t].Inside? && w.tasks[u].Inside? && w.tasks[t].lock == w.tasks[u].lock ==> t == u
  }

  ghost predicate LockInv(w: World) {
    TableInv(w) && OnePerLock(w) && forall t :: CurrentLock(w, t)
  }

  lemma {:induction false} LocksExclude(w: World)
    requires LockInv(w)
    ensures Exclusive(w)
  {
    forall t, u | t in w.tasks && u in w.tasks && w.tasks[t].Inside? && w.tasks[u].Inside? && w.tasks[t].id == w.tasks[u].id
      ensures t == u
    {
      assert CurrentLock(w, t) && CurrentLock(w, u);
    }
  }

  lemma {:induction false} MovingKeepsLocks(w: World, w': World, t: TaskId)
    requires LockInv(w) && t in w.tasks && w'.locks == w.locks && w'.next == w.next
    requires w'.tasks.Keys == w.tasks.Keys && w'.tasks[t].id == w.tasks[t].id && w'.tasks[t].lock == w.tasks[t].lock
    requires forall u :: u in w.tasks && u != t ==> w'.tasks[u] == w.tasks[u]
    requires w'.tasks[t].Inside? ==> w.tasks[t].Inside? || !Held(w, w.tasks[t].lock)
    ensures LockInv(w')
  {
    forall u ensures CurrentLock(w', u) {
      assert CurrentLock(w, u);
    }
  }

  lemma {:induction false} EnterKeepsLocks(w: World, t: TaskId, id: Id, op: Op)
    requires LockInv(w) && Enabled(w, Enter(t, id, op))
    ensures LockInv(EnterStep(w, t, id, op))
  {
    var w' := EnterStep(w, t, id, op);
    forall u ensures CurrentLock(w', u) {
      assert CurrentLock(w, u);
    }
  }

  lemma {:induction false} LeaveKeepsLocks(w: World, t: TaskId)
    requires LockInv(w) && Enabled(w, Leave(t)) && Quiet(w, Leave(t))
    ensures LockInv(LeaveStep(w, t))
  {
    var w' := LeaveStep(w, t);
    LocksExclude(w);
    forall u ensures CurrentLock(w', u) {
      assert CurrentLock(w, u) && CurrentLock(w, t);
    }
  }

  lemma {:induction false} StepKeepsLocks(w: World, s: Step)
    requires LockInv(w) && Enabled(w, s) && Quiet(w, s)
    ensures LockInv(Next(w, s))
  {
    match s
    case Enter(t, id, op) => EnterKeepsLocks(w, t, id, op);
    case Leave(t) => LeaveKeepsLocks(w, t);
    case Acquire(t) => MovingKeepsLocks(w, Next(w, s), t);
    case Act(t) => MovingKeepsLocks(w, Next(w, s), t);
    case Incr(t) => MovingKeepsLocks(w, Next(w, s), t);
    case Commit(t) => MovingKeepsLocks(w, Next(w, s), t);
    case Raise(t, _) => MovingKeepsLocks(w, Next(w, s), t);
  }

  /** An eviction under a waiter always breaks exclusion: a newcomer gets a fresh
      lock, and both enter. */
  lemma {:induction false} EvictionUnderWaiterBreaks(w: World, t: TaskId, u: TaskId, n: TaskId, op: Op)
    requires LockInv(w) && Enabled(w, Leave(t)) && Evicts(w, Leave(t))
    requires u in w.tasks && u != t && w.tasks[u].Waiting? && w.tasks[u].id == w.tasks[t].id
    requires n !in w.tasks && w.tasks[t].id in w.objects
    ensures var w1 := Next(w, Leave(t));
            Enabled(w1, Enter(n, w.tasks[t].id, op)) &&
            var w2 := Next(w1, Enter(n, w.tasks[t].id, op));
            Enabled(w2, Acquire(n)) &&
            var w3 := Next(w2, Acquire(n));
            Enabled(w3, Acquire(u)) && !Exclusive(Next(w3, Acquire(u)))
  {
    var w1 := Next(w, Leave(t));
    var w2 := Next(w1, Enter(n, w.tasks[t].id, op));
    assert CurrentLock(w, t) && CurrentLock(w, u);
    assert forall v :: v in w.tasks && v != t && w.tasks[v].Inside? ==> w.tasks[v].lock != w.tasks[u].lock;
    NoneHoldsNext(w, n, t);
    var w3 := Next(w2, Acquire(n));
    var w4 := Next(w3, Acquire(u));
    assert w4.tasks[n].Inside? && w4.tasks[u].Inside? && w4.tasks[n].id == w4.tasks[u].id && n != u;
  }

  lemma {:induction false} NoneHoldsNext(w: World, n: TaskId, t: TaskId)
    requires LockInv(w)
    ensures forall v :: v in w.tasks ==> w.tasks[v].lock < w.next
  {
    forall v | v in w.tasks ensures w.tasks[v].lock < w.next {
      assert CurrentLock(w, v);
    }
  }

  // ---------------------------------------------------------------- the store under the locks

  function Goal(op: Op, before: ProgramState): ProgramState { if op.SetState? then op.target else before }

  predicate Writes(task: Task) { task.Inside? && (task.point.Assigned? || task.point.Stamped?) }

  /** The stored state while a write is under way is the one before it. */
  ghost predicate TaskOk(w: World, t: TaskId) {
    && (t in w.tasks ==> w.tasks[t].id in w.objects)
    && (t in w.tasks && Writes(w.tasks[t]) ==> WriteOk(w, w.tasks[t]))
    && (t in w.tasks && Evicting(w.tasks[t]) ==> StoredTerminal(w, w.tasks[t]))
  }

  predicate Evicting(task: Task) { task.Inside? && task.point.Finished? && task.point.evicts }

  ghost predicate StoredTerminal(w: World, task: Task) {
    task.op.SetState? && Terminal(task.op.target) && task.id in w.db.blobs && w.db.blobs[task.id].state == task.op.target
  }

  ghost predicate WriteOk(w: World, task: Task)
    requires Writes(task) && task.id in w.objects
  {
    && task.id in w.db.blobs
    && w.db.blobs[task.id].state == task.point.before
    && w.objects[task.id].state == Goal(task.op, task.point.before)
    && (task.op.SetState? ==> task.op.target != task.point.before)
    && IsValidTransition(task.point.before, Goal(task.op, task.point.before))
    && (task.point.Stamped? ==>
          && task.point.blob == Stamp(w.objects[task.id], task.point.blob.atomicCounter)
          && w.db.blobs[task.id].atomicCounter < task.point.blob.atomicCounter <= w.db.counter)
  }

  ghost predicate Written(w: World, id: Id) { exists t :: t in w.tasks && Writes(w.tasks[t]) && w.tasks[t].id == id }

  ghost predicate ObjectOk(w: World, id: Id) {
    id in w.objects ==>
      && w.objects[id].id == id && id in w.db.blobs && w.db.blobs[id].atomicCounter <= w.db.counter
      && (Written(w, id) || w.db.blobs[id].state == w.objects[id].state)
  }

  ghost predicate DataInv(w: World) {
    IndexInv(w.db) && (forall t :: TaskOk(w, t)) && (forall id :: ObjectOk(w, id))
  }

  /** Every program is stored as it is in memory, and nobody is at work. */
  ghost predicate Init(w: World) {
    && w.tasks == map[] && w.locks == map[]
    && IndexInv(w.db)
    && forall id :: id in w.objects ==>
         && w.objects[id].id == id && id in w.db.blobs
         && w.db.blobs[id].state == w.objects[id].state && w.db.blobs[id].atomicCounter <= w.db.counter
  }

  ghost predicate SameElsewhere(w: World, w': World, t: TaskId) {
    && t in w.tasks
    && (forall u :: u != t ==> (u in w'.tasks <==> u in w.tasks))
    && (forall u :: u in w.tasks && u != t ==> w'.tasks[u] == w.tasks[u])
    && w'.objects.Keys == w.objects.Keys && w.db.counter <= w'.db.counter
    && (forall id :: id in w.objects && id != w.tasks[t].id ==> w'.objects[id] == w.objects[id])
    && (forall id :: id != w.tasks[t].id ==> (id in w'.db.blobs <==> id in w.db.blobs))
    && (forall id :: id in w.db.blobs && id != w.tasks[t].id ==> w'.db.blobs[id] == w.db.blobs[id])
  }

  /** A step inside the lock concerns its own id only; nobody else is inside. */
  lemma {:induction false} OthersUntouched(w: World, w': World, t: TaskId)
    requires DataInv(w) && Exclusive(w) && SameElsewhere(w, w', t) && w.tasks[t].Inside?
    requires IndexInv(w'.db) && TaskOk(w', t) && ObjectOk(w', w.tasks[t].id)
    requires t in w'.tasks
    ensures DataInv(w')
  {
    forall u ensures TaskOk(w', u) {
      assert TaskOk(w, u);
    }
    forall id ensures ObjectOk(w', id) {
      assert ObjectOk(w, id);
      if id in w.objects && id != w.tasks[t].id && Written(w, id) {
        var u :| u in w.tasks && Writes(w.tasks[u]) && w.tasks[u].id == id;
        assert w'.tasks[u] == w.tasks[u];
      }
    }
  }

  lemma {:induction false} NotWrittenByOthers(w: World, t: TaskId)
    requires Exclusive(w) && t in w.tasks && w.tasks[t].Inside? && !Writes(w.tasks[t])
    ensures !Written(w, w.tasks[t].id)
  {
  }

  /** Changing the object and moving on to the write, or giving up without one. */
  lemma {:induction false} MoveKeepsData(w: World, t: TaskId, p: Program, point: Point)
    requires DataInv(w) && Exclusive(w) && t in w.tasks && w.tasks[t].Inside? && !Writes(w.tasks[t]) && w.tasks[t].id in w.objects
    requires var before := w.objects[w.tasks[t].id].state;
             p.id == w.tasks[t].id && (
             || (point == Assigned(before) && p.state == Goal(w.tasks[t].op, before) && IsValidTransition(before, p.state)
                 && (w.tasks[t].op.SetState? ==> w.tasks[t].op.target != before))
             || (point == Finished(false) && p.state == before))
    ensures DataInv(MoveTo(w.(objects := w.objects[w.tasks[t].id := p]), t, point))
  {
    var id := w.tasks[t].id;
    var w' := MoveTo(w.(objects := w.objects[id := p]), t, point);
    assert ObjectOk(w, id);
    NotWrittenByOthers(w, t);
    assert t in w'.tasks;
    assert Writes(w'.tasks[t]) ==> Written(w', id);
    OthersUntouched(w, w', t);
  }

  lemma {:induction false} ActKeepsData(w: World, t: TaskId)
    requires DataInv(w) && Exclusive(w) && Enabled(w, Act(t))
    ensures DataInv(ActStep(w, t)) && ActStep(w, t).db == w.db
  {
    var p := w.objects[w.tasks[t].id];
    assert ObjectOk(w, w.tasks[t].id);
    assert w.objects[w.tasks[t].id := p] == w.objects;
    match w.tasks[t].op
    case SetState(target) =>
      if p.state == target || !IsValidTransition(p.state, target) {
        MoveKeepsData(w, t, p, Finished(false));
      } else {
        MoveKeepsData(w, t, InState(p, target), Assigned(p.state));
      }
    case SetResult(stage, result) => MoveKeepsData(w, t, WithResult(p, stage, result), Assigned(p.state));
    case WriteBack => MoveKeepsData(w, t, p, Assigned(p.state));
  }

  lemma {:induction false} IncrKeepsData(w: World, t: TaskId)
    requires DataInv(w) && Exclusive(w) && Enabled(w, Incr(t))
    ensures DataInv(IncrStep(w, t))
    ensures IncrStep(w, t).db.blobs == w.db.blobs && IncrStep(w, t).db.sets == w.db.sets
  {
    var w' := IncrStep(w, t);
    var id := w.tasks[t].id;
    assert TaskOk(w, t) && ObjectOk(w, id);
    assert Written(w', id) by {
      assert t in w'.tasks && Writes(w'.tasks[t]);
    }
    IndexIgnoresCounter(w.db, w'.db.counter);
    OthersUntouched(w, w', t);
  }

  lemma {:induction false} WriteKeepsIndex(db: Db, id: Id, op: Op, blob: Program, before: ProgramState)
    requires IndexInv(db) && id in db.blobs && db.blobs[id].state == before && blob.state == Goal(op, before)
    ensures IndexInv(Write(db, id, op, blob, before))
  {
    var after := Write(db, id, op, blob, before);
    forall k, s ensures k in after.sets.At(s) <==> k in after.blobs && after.blobs[k].state == s {
      IndexAt(db, k, s);
    }
  }

  lemma {:induction false} CommitKeepsData(w: World, t: TaskId)
    requires DataInv(w) && Exclusive(w) && Enabled(w, Commit(t))
    ensures DataInv(CommitStep(w, t))
    ensures var id := w.tasks[t].id;
            && id in w.db.blobs && id in CommitStep(w, t).db.blobs
            && w.db.blobs[id].atomicCounter < CommitStep(w, t).db.blobs[id].atomicCounter
            && IsValidTransition(w.db.blobs[id].state, CommitStep(w, t).db.blobs[id].state)
            && (forall k :: k in w.db.blobs && k != id ==> k in CommitStep(w, t).db.blobs && CommitStep(w, t).db.blobs[k] == w.db.blobs[k])
  {
    var w', task := CommitStep(w, t), w.tasks[t];
    assert TaskOk(w, t) && ObjectOk(w, task.id);
    WriteKeepsIndex(w.db, task.id, task.op, task.point.blob, task.point.before);
    OthersUntouched(w, w', t);
  }

  /** A failed call is harmless if its write arrived after all, or would not have
      moved the program. */
  ghost predicate Harmless(w: World, s: Step) {
    s.Raise? ==> s.applied || (s.t in w.tasks && !w.tasks[s.t].op.SetState?)
  }

  lemma {:induction false} RaiseKeepsData(w: World, t: TaskId, applied: bool)
    requires DataInv(w) && Exclusive(w) && Enabled(w, Raise(t, applied)) && Harmless(w, Raise(t, applied))
    ensures DataInv(RaiseStep(w, t, applied))
    ensures applied ==> RaiseStep(w, t, applied).db == CommitStep(w, t).db
  {
    var w', task := RaiseStep(w, t, applied), w.tasks[t];
    assert TaskOk(w, t) && ObjectOk(w, task.id);
    if applied {
      WriteKeepsIndex(w.db, task.id, task.op, task.point.blob, task.point.before);
    }
    OthersUntouched(w, w', t);
  }

  /** Waiting, entering and leaving change neither the store nor the objects. */
  lemma {:induction false} QuietStepsKeepData(w: World, s: Step)
    requires DataInv(w) && Enabled(w, s) && (s.Enter? || s.Acquire? || s.Leave?)
    ensures DataInv(Next(w, s)) && Next(w, s).db == w.db
  {
    var w' := Next(w, s);
    forall t ensures TaskOk(w', t) {
      assert TaskOk(w, t);
    }
    forall id ensures ObjectOk(w', id) {
      assert ObjectOk(w, id);
      if id in w.objects && Written(w, id) {
        var t :| t in w.tasks && Writes(w.tasks[t]) && w.tasks[t].id == id;
        assert t in w'.tasks && w'.tasks[t] == w.tasks[t];
      }
    }
  }

  /** Stamp and write together are the store's fast path and its exclusive write,
      with the counter value taken earlier. */
  lemma {:induction false} WriteIsTheFastPath(db: Db, p: Program, op: Op, before: ProgramState, stamp: nat)
    requires stamp > 0 && (op.SetState? ==> op.target != before)
    ensures Write(db, p.id, op, Stamp(p, stamp), before) == StoreCall(db, p, op, before, stamp)
  {
  }

  /** The call of the store that a lock holder makes, had it come at the moment
      the counter stood just below its stamp. */
  function StoreCall(db: Db, p: Program, op: Op, before: ProgramState, stamp: nat): Db
    requires stamp > 0
  {
    var earlier := db.(counter := stamp - 1);
    (if op.SetState? then FastDb(earlier, p, before, op.target) else WriteExclusiveDb(earlier, p)).(counter := db.counter)
  }

  /** Every program stored before is stored after, in a state it may move to, and
      a changed one has a larger stamp. */
  ghost predicate ValidEdges(before: Db, after: Db) {
    forall id :: id in before.blobs ==>
      && id in after.blobs && IsValidTransition(before.blobs[id].state, after.blobs[id].state)
      && (after.blobs[id] == before.blobs[id] || before.blobs[id].atomicCounter < after.blobs[id].atomicCounter)
  }

  lemma {:induction false} RaiseIsValid(w: World, t: TaskId, applied: bool)
    requires DataInv(w) && Exclusive(w) && Enabled(w, Raise(t, applied)) && Harmless(w, Raise(t, applied))
    ensures DataInv(RaiseStep(w, t, applied)) && ValidEdges(w.db, RaiseStep(w, t, applied).db)
  {
    RaiseKeepsData(w, t, applied);
    if applied {
      CommitKeepsData(w, t);
    }
  }

  lemma {:induction false} StepKeepsData(w: World, s: Step)
    requires DataInv(w) && Exclusive(w) && Enabled(w, s) && Harmless(w, s)
    ensures DataInv(Next(w, s)) && ValidEdges(w.db, Next(w, s).db)
  {
    match s
    case Act(t) => ActKeepsData(w, t);
    case Incr(t) => IncrKeepsData(w, t);
    case Commit(t) => CommitKeepsData(w, t);
    case Raise(t, applied) => RaiseIsValid(w, t, applied);
    case Enter(_, _, _) => QuietStepsKeepData(w, s);
    case Acquire(_) => QuietStepsKeepData(w, s);
    case Leave(_) => QuietStepsKeepData(w, s);
  }

  // ---------------------------------------------------------------- runs

  /** A run in which no eviction happens under a waiter. */
  ghost predicate QuietRun(w: World, steps: seq<Step>, w': World)
    decreases |steps|
  {
    if steps == [] then w' == w
    else Enabled(w, steps[0]) && Quiet(w, steps[0]) && QuietRun(Next(w, steps[0]), steps[1..], w')
  }

  /** And in which every failed call is harmless. */
  ghost predicate SteadyRun(w: World, steps: seq<Step>, w': World)
    decreases |steps|
  {
    if steps == [] then w' == w
    else Enabled(w, steps[0]) && Quiet(w, steps[0]) && Harmless(w, steps[0]) && SteadyRun(Next(w, steps[0]), steps[1..], w')
  }

  lemma {:induction false} RunKeepsLocks(w: World, steps: seq<Step>, w': World)
    requires LockInv(w) && Known(w) && QuietRun(w, steps, w')
    ensures LockInv(w') && Known(w')
    decreases |steps|
  {
    if steps != [] {
      StepKeepsLocks(w, steps[0]);
      RunKeepsLocks(Next(w, steps[0]), steps[1..], w');
    }
  }

  /** Tasks are about programs in memory. */
  ghost predicate Known(w: World) { forall t :: t in w.tasks ==> w.tasks[t].id in w.objects }

  lemma {:induction false} RunKeeps(w: World, steps: seq<Step>, w': World)
    requires LockInv(w) && DataInv(w) && SteadyRun(w, steps, w')
    ensures LockInv(w') && DataInv(w')
    decreases |steps|
  {
    if steps != [] {
      LocksExclude(w);
      StepKeepsLocks(w, steps[0]);
      StepKeepsData(w, steps[0]);
      RunKeeps(Next(w, steps[0]), steps[1..], w');
    }
  }

  lemma {:induction false} InitHolds(w: World)
    requires Init(w)
    ensures LockInv(w) && DataInv(w) && Known(w)
  {
    assert forall t :: t !in w.tasks;
    assert forall t :: TaskOk(w, t);
    assert forall id :: ObjectOk(w, id);
  }

  /** In every state such a run reaches, at most one task is inside the lock of
      an id. */
  lemma {:induction false} MutualExclusion(w0: World, steps: seq<Step>, w: World)
    requires Init(w0) && QuietRun(w0, steps, w)
    ensures Exclusive(w)
  {
    InitHolds(w0);
    RunKeepsLocks(w0, steps, w);
    LocksExclude(w);
  }

  /** And every step from it, evicting or not, keeps the status index and moves
      stored programs only along the allowed transitions. */
  lemma {:induction false} EveryChangeIsAValidEdge(w0: World, steps: seq<Step>, w: World, s: Step)
    requires Init(w0) && SteadyRun(w0, steps, w) && Enabled(w, s) && Harmless(w, s)
    ensures IndexInv(w.db) && IndexInv(Next(w, s).db)
    ensures ValidEdges(w.db, Next(w, s).db)
  {
    InitHolds(w0);
    RunKeeps(w0, steps, w);
    LocksExclude(w);
    StepKeepsData(w, s);
  }

  /** A lock is only ever dropped for a program stored in a terminal state. */
  lemma {:induction false} EvictedIsStoredTerminal(w0: World, steps: seq<Step>, w: World, t: TaskId)
    requires Init(w0) && SteadyRun(w0, steps, w) && Enabled(w, Leave(t)) && Evicts(w, Leave(t))
    ensures w.tasks[t].id in w.db.blobs && Terminal(w.db.blobs[w.tasks[t].id].state)
  {
    InitHolds(w0);
    RunKeeps(w0, steps, w);
    assert TaskOk(w, t);
  }

  /** A state change ends without a write exactly when the stored program is
      there already or may not go there, although the call looks only at the
      program in memory. */
  lemma {:induction false} NoWriteIff(w0: World, steps: seq<Step>, w: World, t: TaskId, target: ProgramState)
    requires Init(w0) && SteadyRun(w0, steps, w) && Enabled(w, Act(t)) && w.tasks[t].op == SetState(target)
    ensures w.tasks[t].id in w.db.blobs
    ensures !Writes(ActStep(w, t).tasks[t]) <==>
              w.db.blobs[w.tasks[t].id].state == target || !IsValidTransition(w.db.blobs[w.tasks[t].id].state, target)
  {
    InitHolds(w0);
    RunKeeps(w0, steps, w);
    LocksExclude(w);
    assert ObjectOk(w, w.tasks[t].id);
    NotWrittenByOthers(w, t);
  }

  /** The write that follows is the store's fast path, from the state that is
      really stored, or its exclusive write, in the state that is really stored:
      the ownership those calls ask for. */
  lemma {:induction false} CommitIsTheFastPath(w0: World, steps: seq<Step>, w: World, t: TaskId)
    requires Init(w0) && SteadyRun(w0, steps, w) && Enabled(w, Commit(t))
    ensures var task := w.tasks[t];
            && task.id in w.db.blobs && task.id in w.objects && task.point.blob.atomicCounter > 0
            && Next(w, Commit(t)).db
               == StoreCall(w.db, w.objects[task.id], task.op, w.db.blobs[task.id].state, task.point.blob.atomicCounter)
            && w.objects[task.id].state == Goal(task.op, w.db.blobs[task.id].state)
  {
    InitHolds(w0);
    RunKeeps(w0, steps, w);
    var task := w.tasks[t];
    assert TaskOk(w, t) && ObjectOk(w, task.id);
    WriteIsTheFastPath(w.db, w.objects[task.id], task.op, task.point.before, task.point.blob.atomicCounter);
  }

  // ---------------------------------------------------------------- from the change to what is stored

  /** The task is between its change and its write, and the object is as the
      change has left it. */
  ghost predicate Holds(w: World, t: TaskId, id: Id, op: Op, p: Program) {
    && t in w.tasks && Writes(w.tasks[t]) && w.tasks[t].id == id && w.tasks[t].op == op
    && id in w.objects && w.objects[id] == p
  }

  lemma {:induction false} HoldsOn(w: World, s: Step, t: TaskId, id: Id, op: Op, p: Program)
    requires Exclusive(w) && Enabled(w, s) && Holds(w, t, id, op, p) && (s.t == t ==> s.Incr?)
    ensures Holds(Next(w, s), t, id, op, p)
  {
    if s.Act? {
      assert w.tasks[s.t].id != id;
    }
  }

  function Draws(steps: seq<Step>): nat
    decreases |steps|
  {
    if steps == [] then 0 else (if steps[0].Incr? then 1 else 0) + Draws(steps[1..])
  }

  /** The counter counts the stamps drawn. */
  lemma {:induction false} CounterCountsDraws(w: World, steps: seq<Step>, w': World)
    requires QuietRun(w, steps, w')
    ensures w'.db.counter == w.db.counter + Draws(steps)
    decreases |steps|
  {
    if steps != [] {
      CounterCountsDraws(Next(w, steps[0]), steps[1..], w');
    }
  }

  /** The task does nothing but draw its stamp. */
  ghost predicate OnlyStamps(steps: seq<Step>, t: TaskId) {
    forall k :: 0 <= k < |steps| && steps[k].t == t ==> steps[k].Incr?
  }

  lemma {:induction false} RunHolds(w: World, steps: seq<Step>, w': World, t: TaskId, id: Id, op: Op, p: Program)
    requires LockInv(w) && DataInv(w) && SteadyRun(w, steps, w') && OnlyStamps(steps, t) && Holds(w, t, id, op, p)
    ensures Holds(w', t, id, op, p)
    decreases |steps|
  {
    if steps != [] {
      LocksExclude(w);
      HoldsOn(w, steps[0], t, id, op, p);
      StepKeepsLocks(w, steps[0]);
      StepKeepsData(w, steps[0]);
      forall k | 0 <= k < |steps[1..]| && steps[1..][k].t == t ensures steps[1..][k].Incr? {
        assert steps[1..][k] == steps[k + 1];
      }
      RunHolds(Next(w, steps[0]), steps[1..], w', t, id, op, p);
    }
  }

  /** `stored` has this result of the stage, a new stamp, and is `found` otherwise. */
  ghost predicate HasResult(found: Program, stored: Program, stage: string, result: Value) {
    && stage in stored.stageResults && stored.stageResults[stage] == result
    && stored.stageResults.Keys == found.stageResults.Keys + {stage}
    && (forall k :: k in found.stageResults && k != stage ==> stored.stageResults[k] == found.stageResults[k])
    && stored.(stageResults := found.stageResults, atomicCounter := found.atomicCounter) == found
  }

  /** What a call makes of the program it found in memory. */
  ghost predicate Effect(op: Op, found: Program, stored: Program) {
    match op
    case SetState(target) => MovedTo(found, stored, target, stored.atomicCounter)
    case SetResult(stage, result) => HasResult(found, stored, stage, result)
    case WriteBack => stored.(atomicCounter := found.atomicCounter) == found
  }

  lemma {:induction false} ActHolds(w: World, t: TaskId)
    requires Enabled(w, Act(t)) && Writes(ActStep(w, t).tasks[t])
    ensures var id := w.tasks[t].id; var p := ActStep(w, t).objects[id];
            && Holds(ActStep(w, t), t, id, w.tasks[t].op, p)
            && p.atomicCounter == w.objects[id].atomicCounter
            && forall stamp: nat :: Effect(w.tasks[t].op, w.objects[id], Stamp(p, stamp))
  {
  }

  /** The status sets after a call on a program found in this state. */
  ghost predicate SetsAfter(op: Op, id: Id, found: ProgramState, before: StatusSets, after: StatusSets) {
    if op.SetState? then SetsMoved(before, after, {id}, {found}, {op.target}) else after == before
  }

  /** The call stores its change to the program it found, with a newer stamp that
      the program in memory does not get; nothing else in the store changes but
      its place in the status sets, and the lock is dropped exactly when the
      program is now Done or Discarded. */
  ghost predicate StoresChange(w: World, w': World, t: TaskId, id: Id, op: Op, found: Program) {
    && id in w.db.blobs && id in w'.db.blobs
    && Effect(op, found, w'.db.blobs[id])
    && id in w'.objects && w'.objects[id] == w'.db.blobs[id].(atomicCounter := found.atomicCounter)
    && w.db.blobs[id].atomicCounter < w'.db.blobs[id].atomicCounter <= w'.db.counter
    && w'.db.blobs == w.db.blobs[id := w'.db.blobs[id]]
    && SetsAfter(op, id, w.db.blobs[id].state, w.db.sets, w'.db.sets)
    && (Evicts(w', Leave(t)) <==> op == SetState(Done) || op == SetState(Discarded))
  }

  lemma {:induction false} CommitWrites(w: World, t: TaskId, id: Id, op: Op, p: Program, found: Program)
    requires DataInv(w) && Enabled(w, Commit(t)) && Holds(w, t, id, op, p)
    requires p.atomicCounter == found.atomicCounter && forall stamp: nat :: Effect(op, found, Stamp(p, stamp))
    ensures StoresChange(w, CommitStep(w, t), t, id, op, found)
  {
    assert TaskOk(w, t);
    var blob := w.tasks[t].point.blob;
    assert blob == Stamp(p, blob.atomicCounter);
  }

  /** Over every steady run: what a call finally stores is the program it found
      in memory, with the change it is for, a newer stamp and nothing else, no
      matter who else worked in between. */
  lemma {:induction false} CommitStoresTheChange(w0: World, one: seq<Step>, w1: World, t: TaskId, two: seq<Step>, w2: World)
    requires Init(w0) && SteadyRun(w0, one, w1) && Enabled(w1, Act(t)) && Writes(ActStep(w1, t).tasks[t])
    requires SteadyRun(ActStep(w1, t), two, w2) && OnlyStamps(two, t) && Enabled(w2, Commit(t))
    ensures StoresChange(w2, Next(w2, Commit(t)), t, w1.tasks[t].id, w1.tasks[t].op, w1.objects[w1.tasks[t].id])
  {
    InitHolds(w0);
    RunKeeps(w0, one, w1);
    LocksExclude(w1);
    StepKeepsLocks(w1, Act(t));
    ActKeepsData(w1, t);
    ActHolds(w1, t);
    var id, op, mid := w1.tasks[t].id, w1.tasks[t].op, ActStep(w1, t);
    RunHolds(mid, two, w2, t, id, op, mid.objects[id]);
    RunKeeps(mid, two, w2);
    CommitWrites(w2, t, id, op, mid.objects[id], w1.objects[id]);
  }

  // ---------------------------------------------------------------- failed calls

  /** The old state a fast path claims is the one stored. */
  ghost predicate ClaimHolds(w: World, t: TaskId) {
    At(w, t, (p: Point) => p.Stamped?) ==>
      w.tasks[t].id in w.db.blobs && w.db.blobs[w.tasks[t].id].state == w.tasks[t].point.before
  }

  /** Whatever the tasks do next, every claim holds and the index is kept. */
  ghost predicate StaysSound(w: World) {
    forall steps, w' :: SteadyRun(w, steps, w') ==> IndexInv(w'.db) && forall t :: ClaimHolds(w', t)
  }

  lemma {:induction false} SteadyFirst(w: World, s: Step, rest: seq<Step>, w': World) returns (steps: seq<Step>)
    requires Enabled(w, s) && Quiet(w, s) && Harmless(w, s) && SteadyRun(Next(w, s), rest, w')
    ensures SteadyRun(w, steps, w')
  {
    steps := [s] + rest;
    assert steps[1..] == rest;
  }

  /** Memory and store disagree on the state of a program nobody works on. */
  ghost predicate Diverged(w: World, id: Id) {
    id in w.objects && id in w.db.blobs && w.objects[id].state != w.db.blobs[id].state
  }

  /** Someone inside is about to write back a state that is not stored. */
  lemma {:induction false} DivergedWritesBack(w: World, t: TaskId) returns (steps: seq<Step>, w': World)
    requires At(w, t, (p: Point) => p.Entered?) && w.tasks[t].op == WriteBack && Diverged(w, w.tasks[t].id)
    ensures SteadyRun(w, steps, w') && !ClaimHolds(w', t)
  {
    var w1 := Next(w, Act(t));
    w' := Next(w1, Incr(t));
    assert SteadyRun(w', [], w');
    steps := SteadyFirst(w1, Incr(t), [], w');
    steps := SteadyFirst(w, Act(t), steps, w');
  }

  /** Such a task can come to be: the one that failed leaves and enters again. */
  lemma {:induction false} Reenters(w: World, t: TaskId) returns (steps: seq<Step>, w': World)
    requires LockInv(w) && At(w, t, (p: Point) => p.Finished? && !p.evicts) && w.tasks[t].id in w.objects
    ensures SteadyRun(w, steps, w') && w'.db == w.db && w'.objects == w.objects
    ensures At(w', t, (p: Point) => p.Entered?) && w'.tasks[t].op == WriteBack && w'.tasks[t].id == w.tasks[t].id
  {
    var id := w.tasks[t].id;
    assert CurrentLock(w, t);
    var w1 := Next(w, Leave(t));
    var w2 := Next(w1, Enter(t, id, WriteBack));
    assert w2.tasks[t].lock == w.tasks[t].lock && !Held(w2, w.tasks[t].lock);
    w' := Next(w2, Acquire(t));
    assert SteadyRun(w', [], w');
    steps := SteadyFirst(w2, Acquire(t), [], w');
    steps := SteadyFirst(w1, Enter(t, id, WriteBack), steps, w');
    steps := SteadyFirst(w, Leave(t), steps, w');
  }

  lemma {:induction false} SteadyOn(w: World, one: seq<Step>, mid: World, two: seq<Step>, w': World)
    requires SteadyRun(w, one, mid) && SteadyRun(mid, two, w')
    ensures SteadyRun(w, one + two, w')
    decreases |one|
  {
    if one == [] {
      assert one + two == two;
    } else {
      assert (one + two)[1..] == one[1..] + two;
      SteadyOn(Next(w, one[0]), one[1..], mid, two, w');
    }
  }

  lemma {:induction false} SoundFrom(w: World)
    requires LockInv(w) && DataInv(w)
    ensures StaysSound(w)
  {
    forall steps, w' | SteadyRun(w, steps, w') ensures IndexInv(w'.db) && forall t :: ClaimHolds(w', t) {
      RunKeeps(w, steps, w');
      forall t ensures ClaimHolds(w', t) {
        assert TaskOk(w', t);
      }
    }
  }

  /** A store call that fails leaves everything sound, whatever follows, exactly
      when its write arrived after all or was not a change of state. Otherwise the
      program in memory is in a state that was never stored, and the next write
      claims it was. */
  lemma {:induction false} FailureIsHarmlessIff(w0: World, steps: seq<Step>, w: World, t: TaskId, applied: bool)
    requires Init(w0) && SteadyRun(w0, steps, w) && Enabled(w, Raise(t, applied))
    ensures StaysSound(Next(w, Raise(t, applied))) <==> applied || !w.tasks[t].op.SetState?
  {
    InitHolds(w0);
    RunKeeps(w0, steps, w);
    LocksExclude(w);
    var w1 := Next(w, Raise(t, applied));
    StepKeepsLocks(w, Raise(t, applied));
    if Harmless(w, Raise(t, applied)) {
      RaiseKeepsData(w, t, applied);
      SoundFrom(w1);
    } else {
      assert TaskOk(w, t);
      var one, w2 := Reenters(w1, t);
      var two, w3 := DivergedWritesBack(w2, t);
      SteadyOn(w1, one, w2, two, w3);
    }
  }

  /** The proviso is needed exactly: of two continuations after an eviction, the
      one without a waiter keeps exclusion for good, and the one with a waiter
      can lose it in three steps. */
  lemma {:induction false} ExclusionNeedsQuietEvictions(w0: World, steps: seq<Step>, w: World, t: TaskId)
    requires Init(w0) && QuietRun(w0, steps, w) && Enabled(w, Leave(t)) && Evicts(w, Leave(t))
    ensures !WaitedOn(w, t) ==> LockInv(Next(w, Leave(t)))
    ensures WaitedOn(w, t) ==>
              exists a, b, c :: Enabled(Next(w, Leave(t)), a) && Enabled(Next(Next(w, Leave(t)), a), b)
                && Enabled(Next(Next(Next(w, Leave(t)), a), b), c) && !Exclusive(Next(Next(Next(Next(w, Leave(t)), a), b), c))
  {
    InitHolds(w0);
    RunKeepsLocks(w0, steps, w);
    if WaitedOn(w, t) {
      var u :| u in w.tasks && u != t && w.tasks[u].Waiting? && w.tasks[u].id == w.tasks[t].id;
      var n := FreshNumber(w.tasks.Keys);
      EvictionUnderWaiterBreaks(w, t, u, n, WriteBack);
    } else {
      LeaveKeepsLocks(w, t);
    }
  }
}
